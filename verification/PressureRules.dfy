/** When the book-pressure strategy buys and sells, read off the price, the time and the sizes
    of the last book tick so far.
 */
module PressureRules {
  import opened Wrappers
  import opened Kelly
  import opened Money
  import opened BookPressure
  import opened NoLookAhead

  /** A book with enough on both sides to read a pressure off. */
  predicate Usable(cfg: Config, book: Option<BookTick>) {
    && book.Some? && book.value.bidSize >= cfg.minBidSize && book.value.askSize >= cfg.minAskSize
    && book.value.bidSize + book.value.askSize > 0.0
  }

  /** The last tick of a market up to a time. */
  function LastTick(books: Books, m: string, ts: int): Option<BookTick> {
    var seen := UpTo(Series(books, m), ts);
    if seen == [] then None else Some(seen[|seen| - 1])
  }

  lemma Quotient(x: real, t: real, limit: real)
    requires t > 0.0
    ensures x / t < limit <==> x < limit * t
    ensures (x / t) * t == x
  {
    var q := x / t;
    assert q * t == x;
    SameSign(limit - q, t);
    assert (limit - q) * t == limit * t - x;
  }

  /** The bids outweigh the asks by a share of both. */
  predicate Outweighs(book: BookTick, share: real) {
    book.bidSize - book.askSize >= share * (book.bidSize + book.askSize)
  }

  /** A pressure times both sizes is what bids have over asks. */
  predicate Measures(pressure: real, book: BookTick) {
    pressure * (book.bidSize + book.askSize) == book.bidSize - book.askSize
  }

  /** The pressure is at least a limit exactly when the bids outweigh the asks by that share. */
  lemma PressureAgainst(cfg: Config, books: Books, e: Event, limit: real)
    requires e.Price? && Sorted(Series(books, e.market))
    ensures var p, book := PressureFor(cfg, books, e), LastTick(books, e.market, e.ts);
            && (p.Some? <==> Usable(cfg, book))
            && (p.Some? ==> Measures(p.value, book.value) && (p.value >= limit <==> Outweighs(book.value, limit)))
  {
    BookAtIsLast(books, e.market, e.ts);
    hide BookAt, UpTo;
    var book := LastTick(books, e.market, e.ts);
    if Usable(cfg, book) {
      Quotient(book.value.bidSize - book.value.askSize, book.value.bidSize + book.value.askSize, limit);
    }
  }

  /** The position ought to be left: the price is up by the take-profit or down by the stop
      loss, the position is old enough, or the bids of the last book tick do not outweigh the
      asks by the share that keeps it. */
  predicate Due(cfg: Config, books: Books, pos: Position, e: Event)
    requires e.Price?
  {
    var book := LastTick(books, e.market, e.ts);
    || e.price >= pos.entryPrice + cfg.takeProfitCents as real / 100.0
    || e.price <= pos.entryPrice - cfg.stopLossCents as real / 100.0
    || e.ts - pos.entryTS >= cfg.holdSeconds * 1000
    || (Usable(cfg, book) && !Outweighs(book.value, cfg.exitPressure))
  }

  lemma DueExactly(cfg: Config, books: Books, pos: Position, e: Event)
    requires e.Price? && Sorted(Series(books, e.market))
    ensures ExitOf(cfg, pos, PressureFor(cfg, books, e), e.price, e.ts).Leave? <==> Due(cfg, books, pos, e)
  {
    hide PressureFor, LastTick, Usable, Outweighs, Measures;
    PressureAgainst(cfg, books, e, cfg.exitPressure);
    UsableSome(cfg, LastTick(books, e.market, e.ts));
  }

  lemma UsableSome(cfg: Config, book: Option<BookTick>)
    ensures Usable(cfg, book) ==> book.Some?
  {
  }

  /** A held position is offered for sale exactly when it is due and its market registered: at
      the limit price on take-profit or stop loss, in that order, else at the market's.  Being
      due starts the cooldown whether the sale is offered, accepted, or neither. */
  lemma ExitExactly(cfg: Config, sizing: Sizing, books: Books, st: State, e: Event)
    requires e.Price? && e.market in st.positions && Sorted(Series(books, e.market))
    ensures var pos, out := st.positions[e.market], Step(cfg, sizing, books, st, e);
            var up, down := pos.entryPrice + cfg.takeProfitCents as real / 100.0, pos.entryPrice - cfg.stopLossCents as real / 100.0;
            && (out.offered.Some? <==> e.event != "" && Due(cfg, books, pos, e))
            && out.state.cooldowns == (if Due(cfg, books, pos, e) then st.cooldowns[e.market := e.ts] else st.cooldowns)
            && (out.offered.Some? ==>
                  var o := out.offered.value;
                  && o.isSell && o.ts == e.ts && o.event == e.event && o.market == e.market && o.convProb == pos.entryPrice
                  && o.price == (if e.price >= up then up else if e.price <= down then down else e.price)
                  && o.edgeCents == Truncate((o.price - pos.entryPrice) * 100.0)
                  && o.size == if pos.buySize < 1.0 then 1.0 else pos.buySize)
  {
    DueExactly(cfg, books, st.positions[e.market], e);
    hide PressureFor, Due, Truncate, Entry;
  }

  /** The buying rules: the price is tradeable, the market registered, its event at no set or
      match point, no cooldown is on, and the bids of the last book tick outweigh the asks by
      the share that is asked for. */
  predicate Wanted(cfg: Config, books: Books, st: State, e: Event)
    requires e.Price?
  {
    var book := LastTick(books, e.market, e.ts);
    && cfg.minEntryPrice <= e.price <= cfg.maxEntryPrice && e.event != ""
    && !(e.event in st.scoreState && (st.scoreState[e.event].0 || st.scoreState[e.event].1))
    && !(e.market in st.cooldowns && st.cooldowns[e.market] > 0 && e.ts - st.cooldowns[e.market] < cfg.cooldownSeconds * 1000)
    && Usable(cfg, book) && Outweighs(book.value, cfg.minPressure)
  }

  /** Without a position a buy is offered exactly when it is wanted: at the market's price,
      with two cents of edge for the whole pressure and at least one, towards a target of at
      most 99 cents, and of at least one contract. */
  lemma EntryExactly(cfg: Config, sizing: Sizing, books: Books, st: State, e: Event)
    requires e.Price? && e.market !in st.positions && Sorted(Series(books, e.market))
    ensures var out, book := Step(cfg, sizing, books, st, e), LastTick(books, e.market, e.ts);
            && (out.offered.Some? <==> Wanted(cfg, books, st, e))
            && out.state.cooldowns == st.cooldowns
            && (out.offered.Some? ==>
                  var o := out.offered.value;
                  var raw := Truncate(o.pressure * 200.0 + 0.000000001);
                  var target := e.price + o.edgeCents as real / 100.0;
                  var kelly := KellySize(o.convProb, e.price, sizing);
                  && !o.isSell && o.ts == e.ts && o.event == e.event && o.market == e.market && o.price == e.price
                  && Usable(cfg, book) && Measures(o.pressure, book.value)
                  && o.edgeCents == (if raw < 1 then 1 else raw)
                  && o.convProb == (if target > 0.99 then 0.99 else target)
                  && o.size == if kelly < 1.0 then 1.0 else kelly)
  {
    hide PressureFor, LastTick, Usable, Outweighs, Measures, Truncate, KellySize;
    PressureAgainst(cfg, books, e, cfg.minPressure);
    UsableSome(cfg, LastTick(books, e.market, e.ts));
  }
}
