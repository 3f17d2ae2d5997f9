/** A market's cash flow, read off the raw orders alone: what its buys cost, what its sells
    brought in, and a dollar for each winning contract still held at settlement.  The
    contracts bought form one stream, sold from its front.
 */
module CashFlow {
  import opened Resolver
  import opened ResolverFifo

  /** One buy: `wins` says whether its contracts pay at settlement. */
  datatype Lot = Lot(price: real, size: real, wins: bool)

  predicate On(results: map<string, string>, minPrice: real, o: RawOrder, t: string) {
    Kept(results, minPrice, o) && o.market == t
  }

  function LotOf(results: map<string, string>, o: RawOrder): Lot {
    Lot(o.price, o.size, PaysOut(o.action, ResultOf(results, o.market)))
  }

  /** The lots bought on market `t`. */
  function Bought(results: map<string, string>, minPrice: real, raw: seq<RawOrder>, t: string): seq<Lot> {
    if raw == [] then []
    else
      var before, o := Bought(results, minPrice, raw[..|raw| - 1], t), raw[|raw| - 1];
      if On(results, minPrice, o, t) && !IsSell(o) then before + [LotOf(results, o)] else before
  }

  function Contracts(lots: seq<Lot>): real {
    if lots == [] then 0.0 else Contracts(lots[..|lots| - 1]) + lots[|lots| - 1].size
  }

  /** Contracts a sell takes after `raw`: its size, or what is left. */
  function Sells(results: map<string, string>, minPrice: real, raw: seq<RawOrder>, o: RawOrder): real {
    Min(o.size, Contracts(Bought(results, minPrice, raw, o.market)) - Sold(results, minPrice, raw, o.market))
  }

  /** Contracts sold out of the stream. */
  function Sold(results: map<string, string>, minPrice: real, raw: seq<RawOrder>, t: string): real
    decreases |raw|, 0
  {
    if raw == [] then 0.0
    else
      var init, o := raw[..|raw| - 1], raw[|raw| - 1];
      var before := Sold(results, minPrice, init, t);
      if On(results, minPrice, o, t) && IsSell(o)
      then before + Min(o.size, Contracts(Bought(results, minPrice, init, t)) - before) else before
  }

  function Proceeds(results: map<string, string>, minPrice: real, raw: seq<RawOrder>, t: string): real {
    if raw == [] then 0.0
    else
      var init, o := raw[..|raw| - 1], raw[|raw| - 1];
      Proceeds(results, minPrice, init, t)
      + if On(results, minPrice, o, t) && IsSell(o) then Worth(o.price, Sells(results, minPrice, init, o)) else 0.0
  }

  /** The part still held of a lot of `size` contracts that follows `start` others, once `m`
      contracts of the stream are sold. */
  function Held(start: real, size: real, m: real): real {
    if start >= m then size else if start + size <= m then 0.0 else start + size - m
  }

  function Cost(lots: seq<Lot>): real {
    if lots == [] then 0.0
    else var lot := lots[|lots| - 1]; Cost(lots[..|lots| - 1]) + Worth(lot.price, lot.size)
  }

  /** What `n` contracts of the lot pay at settlement. */
  function Pays(lot: Lot, n: real): real { if lot.wins then n else 0.0 }

  /** What the contracts still held pay at settlement. */
  function Payout(lots: seq<Lot>, m: real): real {
    if lots == [] then 0.0
    else
      var init, lot := lots[..|lots| - 1], lots[|lots| - 1];
      Payout(init, m) + Pays(lot, Held(Contracts(init), lot.size, m))
  }

  /** Cash in less cash out on market `t`. */
  function MarketCash(results: map<string, string>, minPrice: real, raw: seq<RawOrder>, t: string): real {
    var lots := Bought(results, minPrice, raw, t);
    Proceeds(results, minPrice, raw, t) - Cost(lots) + Payout(lots, Sold(results, minPrice, raw, t))
  }

  // ---------------------------------------------------------------- what the rows hold

  /** What the contracts of the stream up to `m` cost. */
  function CostTo(lots: seq<Lot>, m: real): real {
    if lots == [] then 0.0
    else
      var init, lot := lots[..|lots| - 1], lots[|lots| - 1];
      CostTo(init, m) + Worth(lot.price, lot.size - Held(Contracts(init), lot.size, m))
  }

  function Settles(lot: Lot): real { Pays(lot, lot.size) - Worth(lot.price, lot.size) }

  /** Settlement of the lots no part of which is among the first `m` contracts. */
  function SettleFrom(lots: seq<Lot>, m: real): real {
    if lots == [] then 0.0
    else
      var init, lot := lots[..|lots| - 1], lots[|lots| - 1];
      SettleFrom(init, m) + if Contracts(init) < m then 0.0 else Settles(lot)
  }

  /** The open part of a lot that is cut at `m`: its cost less its payout, which no row holds. */
  function Stranded(lots: seq<Lot>, m: real): real {
    if lots == [] then 0.0
    else
      var init, lot := lots[..|lots| - 1], lots[|lots| - 1];
      Stranded(init, m) + StrandedOf(Contracts(init), lot, m)
  }

  function StrandedOf(start: real, lot: Lot, m: real): real {
    var open := Held(start, lot.size, m);
    if start < m then Worth(lot.price, open) - Pays(lot, open) else 0.0
  }

  lemma {:induction false} RowsVersusCash(lots: seq<Lot>, m: real)
    ensures SettleFrom(lots, m) - CostTo(lots, m) == Payout(lots, m) - Cost(lots) + Stranded(lots, m)
  {
    hide Worth;
    if lots != [] {
      var init, lot := lots[..|lots| - 1], lots[|lots| - 1];
      RowsVersusCash(init, m);
      WorthLess(lot.price, lot.size, Held(Contracts(init), lot.size, m));
      WorthLess(lot.price, 0.0, 0.0);
    }
  }

  lemma WorthLess(price: real, m: real, n: real)
    ensures Worth(price, m - n) == Worth(price, m) - Worth(price, n)
  {
  }

  // ---------------------------------------------------------------- where the stream is cut

  predicate PositiveLots(lots: seq<Lot>) {
    forall i :: 0 <= i < |lots| ==> lots[i].size > 0.0
  }

  predicate ProperPrices(lots: seq<Lot>) {
    forall i :: 0 <= i < |lots| ==> 0.0 < lots[i].price < 1.0
  }

  /** The first `m` contracts are whole lots. */
  predicate AtLot(lots: seq<Lot>, m: real) {
    exists j :: 0 <= j <= |lots| && m == Contracts(lots[..j])
  }

  lemma {:induction false} ContractsGrow(lots: seq<Lot>, j: nat)
    requires PositiveLots(lots) && j <= |lots|
    ensures 0.0 <= Contracts(lots[..j]) <= Contracts(lots)
    ensures j < |lots| ==> Contracts(lots[..j]) < Contracts(lots)
  {
    if j < |lots| {
      var init := lots[..|lots| - 1];
      ContractsGrow(init, j);
      assert init[..j] == lots[..j];
    } else {
      assert lots[..j] == lots;
      if lots != [] {
        ContractsGrow(lots[..|lots| - 1], |lots| - 1);
        assert lots[..|lots| - 1][..|lots| - 1] == lots[..|lots| - 1];
      }
    }
  }

  lemma {:induction false} StrandedPast(lots: seq<Lot>, m: real)
    requires PositiveLots(lots) && m >= Contracts(lots)
    ensures Stranded(lots, m) == 0.0
  {
    if lots != [] {
      StrandedPast(lots[..|lots| - 1], m);
      assert Worth(lots[|lots| - 1].price, 0.0) == 0.0;
    }
  }

  /** With lots of positive size and prices between nothing and a dollar, no cost is stranded
      exactly when the stream is cut between two lots. */
  lemma {:induction false} StrandedNone(lots: seq<Lot>, m: real)
    requires PositiveLots(lots) && ProperPrices(lots) && 0.0 <= m <= Contracts(lots)
    ensures Stranded(lots, m) == 0.0 <==> AtLot(lots, m)
  {
    hide Worth, AtLot;
    if lots == [] {
      AtNoLot(lots, m);
    } else {
      var init, lot := lots[..|lots| - 1], lots[|lots| - 1];
      AtLotLast(lots, m);
      if m <= Contracts(init) {
        StrandedNone(init, m);
      } else {
        StrandedPast(init, m);
        CutLot(Contracts(init), lot, m);
      }
    }
  }

  lemma AtNoLot(lots: seq<Lot>, m: real)
    requires lots == []
    ensures AtLot(lots, m) <==> m == 0.0
  {
    assert lots[..0] == [];
  }

  lemma AtLotLast(lots: seq<Lot>, m: real)
    requires PositiveLots(lots) && lots != []
    ensures var init := lots[..|lots| - 1];
            if m <= Contracts(init) then AtLot(lots, m) <==> AtLot(init, m) else AtLot(lots, m) <==> m == Contracts(lots)
  {
    hide Contracts;
    var init := lots[..|lots| - 1];
    assert lots[..|lots|] == lots && init[..|init|] == init;
    if m == Contracts(lots) || m == Contracts(init) {
      ContractsGrow(lots, |lots| - 1);
    }
    if j :| 0 <= j <= |init| && m == Contracts(init[..j]) {
      assert lots[..j] == init[..j];
    }
    if j :| 0 <= j < |lots| && m == Contracts(lots[..j]) {
      ContractsGrow(init, j);
      ContractsGrow(lots, |lots| - 1);
      assert lots[..j] == init[..j];
    }
  }

  /** A lot cut inside strands something: a gain if it loses, a loss if it wins. */
  lemma CutLot(start: real, lot: Lot, m: real)
    requires lot.size > 0.0 && 0.0 < lot.price < 1.0 && start < m <= start + lot.size
    ensures StrandedOf(start, lot, m) == 0.0 <==> m == start + lot.size
    ensures m < start + lot.size ==> (StrandedOf(start, lot, m) > 0.0 <==> !lot.wins)
  {
    hide Worth;
    WorthBetween(lot.price, start + lot.size - m);
    WorthLess(lot.price, 0.0, 0.0);
  }

  lemma WorthBetween(price: real, n: real)
    requires 0.0 < price < 1.0 && n >= 0.0
    ensures n > 0.0 ==> 0.0 < Worth(price, n) < n
  {
    if n > 0.0 {
      var q := 1.0 - price;
      assert q * n > 0.0 && price * n > 0.0;
      assert n == price * n + q * n by { assert price + q == 1.0; }
      assert Worth(price, n) == n - q * n;
    }
  }

  /** At most one lot is cut, and it alone is stranded. */
  lemma {:induction false} StrandedAt(lots: seq<Lot>, m: real, j: nat)
    requires PositiveLots(lots) && j < |lots| && Contracts(lots[..j]) < m < Contracts(lots[..j + 1])
    ensures Stranded(lots, m) == StrandedOf(Contracts(lots[..j]), lots[j], m)
  {
    hide Worth;
    var init := lots[..|lots| - 1];
    if j == |lots| - 1 {
      assert lots[..j + 1] == lots;
      StrandedPast(init, m);
    } else {
      assert init[..j] == lots[..j] && init[..j + 1] == lots[..j + 1];
      StrandedAt(init, m, j);
      ContractsGrow(init, j + 1);
    }
  }
}
