/**
 * The instrument store: the current quote of each tradable symbol. It is seeded with three
 * symbols and a periodic tick rewrites every quote in place; symbols are never added or removed.
 */
module MarketData {
  import opened Common

  /** One instrument's data: its price and its percentage change since the previous tick. */
  datatype Quote = Quote(price: real, change: real)

  /** The symbols the store is seeded with. */
  const SeedSymbols: set<Symbol> := {"BTC/USD", "ETH/USD", "AAPL"}

  /** The seeded store. */
  const SeedQuotes: map<Symbol, Quote> := map[
    "BTC/USD" := Quote(45000.0, 2.5),
    "ETH/USD" := Quote(2500.0, 1.2),
    "AAPL" := Quote(180.0, -0.5)
  ]

  /**
   * One tick of the walk for a quote, given the draw `u` of `Math.random()`: the relative
   * change is `(u - 0.5) * 0.1`, the price is scaled by one plus it, and `change` records it
   * as a percentage.
   */
  function Step(q: Quote, u: real): (r: Quote)
    ensures 0.0 <= u < 1.0 ==> -5.0 <= r.change < 5.0
  {
    var rel := (u - 0.5) * 0.1;
    Quote(q.price * (1.0 + rel), rel * 100.0)
  }

  /**
   * For a draw in [0, 1) a tick moves the price by at most 5% down and less than 5% up, so a
   * positive price stays positive, and the recorded change is the percentage move.
   */
  lemma StepBounded(q: Quote, u: real)
    requires 0.0 <= u < 1.0
    requires q.price > 0.0
    ensures var r := Step(q, u);
      && r.price > 0.0
      && 0.95 * q.price <= r.price < 1.05 * q.price
      && r.price == q.price * (1.0 + r.change / 100.0)
  {
  }

  /** The module-level `marketData` object. */
  class MarketStore {
    var quotes: map<Symbol, Quote>

    /** The key set is exactly the seeded one. */
    ghost predicate Valid()
      reads this
    {
      quotes.Keys == SeedSymbols
    }

    constructor ()
      ensures Valid()
      ensures quotes == SeedQuotes
    {
      quotes := SeedQuotes;
    }

    /** `getMarketData`: the entry of a known symbol, nothing for an unknown one. */
    function GetMarketData(symbol: Symbol): (r: Option<Quote>)
      reads this
      ensures r.Some? <==> symbol in quotes
      ensures r.Some? ==> r.value == quotes[symbol]
      ensures Valid() ==> (r.Some? <==> symbol in SeedSymbols)
    {
      if symbol in quotes then Some(quotes[symbol]) else None
    }

    /** `getAllMarketData`: the whole store, unchanged. */
    function GetAllMarketData(): (r: map<Symbol, Quote>)
      reads this
      ensures r.Keys == quotes.Keys
      ensures forall s :: s in r ==> r[s] == quotes[s]
    {
      quotes
    }

    /**
     * `updateMarketData`: every entry is rewritten in place by one step of the random walk.
     * `draws(symbol)` is the value `Math.random()` returned for that symbol.
     */
    method UpdateMarketData(draws: Symbol -> real)
      modifies this
      ensures quotes.Keys == old(quotes.Keys)
      ensures forall s :: s in quotes ==> quotes[s] == Step(old(quotes)[s], draws(s))
    {
      var remaining := quotes.Keys;
      ghost var before := quotes;
      while remaining != {}
        invariant remaining <= before.Keys
        invariant quotes.Keys == before.Keys
        invariant forall s :: s in quotes ==>
          quotes[s] == if s in remaining then before[s] else Step(before[s], draws(s))
        decreases remaining
      {
        var s :| s in remaining;
        quotes := quotes[s := Step(quotes[s], draws(s))];
        remaining := remaining - {s};
      }
    }
  }
}
