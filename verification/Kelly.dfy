/** Fractional Kelly sizing. */
module Kelly {

  /** The package-level sizing parameters. */
  datatype Sizing = Sizing(bankroll: real, fraction: real)

  function KellySizeRaw(convProb: real, price: real, s: Sizing): real {
    if s.bankroll <= 0.0 || s.fraction <= 0.0 || price >= 1.0 || price <= 0.0 then 0.0
    else
      var f := (convProb - price) / (1.0 - price);
      if f <= 0.0 then 0.0 else s.fraction * f * s.bankroll
  }

  /** Paper orders cost at most five dollars. */
  function KellySize(convProb: real, price: real, s: Sizing): (size: real)
    ensures size >= 0.0
    ensures size > 0.0 ==> 0.0 < price < 1.0 && price * size <= 5.0
  {
    var size := KellySizeRaw(convProb, price, s);
    if size <= 0.0 then 0.0
    else
      var maxSize := 5.0 / price;
      CostCap(price, size);
      if size > maxSize then maxSize else size
  }

  lemma CostCap(price: real, size: real)
    requires price > 0.0
    ensures price * (5.0 / price) == 5.0
    ensures size <= 5.0 / price ==> price * size <= 5.0
  {
    var cap := 5.0 / price;
    assert price * cap == 5.0;
    if size <= cap {
      assert price * (cap - size) >= 0.0;
    }
  }

  /** A size is nothing exactly without an edge, a bankroll, a fraction or a proper price.
      Else it costs five dollars, or, if that is less, is worth at the payoff the fraction of
      the bankroll that the edge calls for. */
  lemma KellyExactly(convProb: real, price: real, s: Sizing)
    ensures var size := KellySize(convProb, price, s);
            var sized := s.bankroll > 0.0 && s.fraction > 0.0 && 0.0 < price < 1.0 && convProb > price;
            if !sized then size == 0.0
            else
              && size > 0.0
              && (price * size == 5.0 || size * (1.0 - price) == s.fraction * s.bankroll * (convProb - price))
              && (size * (1.0 - price) <= s.fraction * s.bankroll * (convProb - price))
  {
    if s.bankroll > 0.0 && s.fraction > 0.0 && 0.0 < price < 1.0 {
      EdgeSign(convProb - price, 1.0 - price);
      if convProb > price {
        var f := (convProb - price) / (1.0 - price);
        RawSize(s.fraction, s.bankroll, f, 1.0 - price, convProb - price);
        CostCap(price, 0.0);
        PositiveCap(price);
        Grows(s.fraction * f * s.bankroll, 5.0 / price, 1.0 - price);
      }
    }
  }

  lemma EdgeSign(edge: real, payoff: real)
    requires payoff > 0.0
    ensures edge > 0.0 <==> edge / payoff > 0.0
    ensures edge / payoff * payoff == edge
  {
    var f := edge / payoff;
    assert f * payoff == edge;
  }

  lemma RawSize(fraction: real, bankroll: real, f: real, payoff: real, edge: real)
    requires fraction > 0.0 && bankroll > 0.0 && f > 0.0 && f * payoff == edge
    ensures fraction * f * bankroll > 0.0 && fraction * f * bankroll * payoff == fraction * bankroll * edge
  {
    assert fraction * f > 0.0;
    assert fraction * f * bankroll * payoff == fraction * bankroll * (f * payoff);
  }

  lemma PositiveCap(price: real)
    requires price > 0.0
    ensures 5.0 / price > 0.0
  {
    EdgeSign(5.0, price);
  }

  lemma Grows(size: real, cap: real, payoff: real)
    requires payoff > 0.0
    ensures size > cap ==> cap * payoff <= size * payoff
  {
    if size > cap {
      assert (size - cap) * payoff > 0.0;
      assert size * payoff == (size - cap) * payoff + cap * payoff;
    }
  }
}
