/** The events a strategy follows, each with its market tickers. */
module Registry {

  /** `event` is an event listing the market; "" only if there is none. */
  predicate Found(markets: map<string, seq<string>>, market: string, event: string) {
    || (event in markets && market in markets[event])
    || (event == "" && forall e <- markets :: market !in markets[e])
  }

  /** The source's map iteration may find any event that lists the market. */
  method EventForMarket(markets: map<string, seq<string>>, market: string) returns (event: string)
    ensures Found(markets, market, event)
  {
    var todo := markets.Keys;
    while todo != {}
      invariant todo <= markets.Keys
      invariant forall e <- markets :: e in todo || market !in markets[e]
      decreases |todo|
    {
      var e :| e in todo;
      if market in markets[e] {
        return e;
      }
      todo := todo - {e};
    }
    event := "";
  }

  /** The tickers listed under an event. */
  function Listed(markets: map<string, seq<string>>, event: string): seq<string> {
    if event in markets then markets[event] else []
  }

  /** Removing one more key. */
  lemma DropOne<V>(m: map<string, V>, keys: set<string>, k: string)
    ensures m - keys - {k} == m - (keys + {k})
  {
  }
}
