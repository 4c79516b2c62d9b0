/** The market-data fetcher: routes stale symbols to one of three quote sources
    and keeps a shared price cache. The sources themselves are remote; their
    replies are parameters. */
module MarketData {
  import opened Wrappers

  /** A quote as the sources return it; a missing name is "". */
  datatype Quote = Quote(symbol: string, name: string, price: Option<real>, changePercent: Option<real>)

  predicate IsDigit(c: char) { '0' <= c <= '9' }
  predicate IsUpperLetter(c: char) { 'A' <= c <= 'Z' }

  /** `/^\d{6,10}$/`: a Tel Aviv Stock Exchange instrument number. */
  predicate IsTaseId(s: string) {
    6 <= |s| <= 10 && forall i :: 0 <= i < |s| ==> IsDigit(s[i])
  }

  /** `/^[A-Z]{3,5}$/`. */
  predicate LooksLikeCryptoTicker(s: string) {
    3 <= |s| <= 5 && forall i :: 0 <= i < |s| ==> IsUpperLetter(s[i])
  }

  /** `isPotentialCrypto`. */
  predicate IsPotentialCrypto(s: string) {
    LooksLikeCryptoTicker(s) && !IsTaseId(s)
  }

  /** The two patterns never match the same string, so the `!isTaseId` guard of
      `isPotentialCrypto` never rejects anything. */
  lemma {:induction false} PatternsDisjoint(s: string)
    ensures !(IsTaseId(s) && LooksLikeCryptoTicker(s))
    ensures IsPotentialCrypto(s) <==> LooksLikeCryptoTicker(s)
  {
    if LooksLikeCryptoTicker(s) {
      assert IsUpperLetter(s[0]) && !IsDigit(s[0]);
    }
  }

  datatype Source = Yahoo | Tase | CoinGecko

  /** Where a symbol is looked up: TASE, else CoinGecko, else Yahoo. */
  function SourceOf(s: string): (src: Source)
    ensures src == Tase <==> IsTaseId(s)
    ensures src == CoinGecko <==> LooksLikeCryptoTicker(s)
    ensures src == Yahoo <==> !IsTaseId(s) && !LooksLikeCryptoTicker(s)
  {
    PatternsDisjoint(s);
    if IsTaseId(s) then Tase else if IsPotentialCrypto(s) then CoinGecko else Yahoo
  }

  /** An ordinary stock ticker is sent to the crypto source. */
  lemma {:induction false} StockTickerGoesToCrypto()
    ensures SourceOf("AAPL") == CoinGecko
  {
    assert LooksLikeCryptoTicker("AAPL");
  }

  datatype CacheEntry = CacheEntry(data: Quote, timestamp: int)

  /** A symbol needs fetching when it is uncached or older than `interval`. */
  predicate Stale(cache: map<string, CacheEntry>, s: string, now: int, interval: int) {
    s !in cache || now - cache[s].timestamp > interval
  }

  /** The symbols, in input order, that need fetching from `src`. */
  function Due(cache: map<string, CacheEntry>, symbols: seq<string>, now: int, interval: int, src: Source): seq<string> {
    if symbols == [] then []
    else
      var s := symbols[|symbols| - 1];
      Due(cache, symbols[..|symbols| - 1], now, interval, src)
        + (if Stale(cache, s, now, interval) && SourceOf(s) == src then [s] else [])
  }

  /** Each stale symbol goes to exactly the source its pattern picks; fresh
      symbols go nowhere. */
  lemma {:induction false} DueMeaning(cache: map<string, CacheEntry>, symbols: seq<string>, now: int, interval: int, src: Source, s: string)
    ensures s in Due(cache, symbols, now, interval, src)
            <==> s in symbols && Stale(cache, s, now, interval) && SourceOf(s) == src
  {
    if symbols != [] {
      var init := symbols[..|symbols| - 1];
      DueMeaning(cache, init, now, interval, src, s);
      assert symbols == init + [symbols[|symbols| - 1]];
    }
  }

  /** Yahoo is asked only for symbols matching neither pattern. */
  lemma {:induction false} YahooGetsTheRest(cache: map<string, CacheEntry>, symbols: seq<string>, now: int, interval: int, s: string)
    requires s in Due(cache, symbols, now, interval, Yahoo)
    ensures !IsTaseId(s) && !LooksLikeCryptoTicker(s)
  {
    DueMeaning(cache, symbols, now, interval, Yahoo, s);
  }

  /** What one source did: it threw, or answered with these quotes (a reply
      without a quote list counts as no quotes). */
  datatype Reply = Failed | Answered(quotes: seq<Quote>)

  /** `prev ? prev + ", " + message : message`, with "" for no error. */
  function AppendError(prev: string, message: string): (r: string)
    requires message != ""
    ensures r != ""
    ensures prev == "" ==> r == message
  {
    if prev == "" then message else prev + ", " + message
  }

  /** The quote list after asking one source, which is asked only when it has symbols. */
  function Gather(acc: seq<Quote>, asked: seq<string>, reply: Reply): (r: seq<Quote>)
    ensures |asked| == 0 || reply.Failed? ==> r == acc
    ensures |asked| > 0 && reply.Answered? ==> r == acc + reply.quotes
  {
    if |asked| > 0 && reply.Answered? then acc + reply.quotes else acc
  }

  function ErrorAfter(prev: string, asked: seq<string>, reply: Reply, message: string): (r: string)
    requires message != ""
    ensures |asked| > 0 && reply.Failed? ==> r == AppendError(prev, message)
    ensures |asked| == 0 || reply.Answered? ==> r == prev
  {
    if |asked| > 0 && reply.Failed? then AppendError(prev, message) else prev
  }

  const NoDataMessage := "No valid market data returned from APIs for new requests."

  /** The cache after storing `quotes` in order, all stamped `t`. */
  function Stored(cache: map<string, CacheEntry>, quotes: seq<Quote>, t: int): map<string, CacheEntry> {
    if quotes == [] then cache
    else
      var q := quotes[|quotes| - 1];
      Stored(cache, quotes[..|quotes| - 1], t)[q.symbol := CacheEntry(q, t)]
  }

  /** The last quote for `s`, which is the one the cache keeps. */
  function LastQuoteFor(quotes: seq<Quote>, s: string): (r: Option<Quote>)
    ensures r.None? <==> forall q :: q in quotes ==> q.symbol != s
    ensures r.Some? ==> r.value in quotes && r.value.symbol == s
  {
    if quotes == [] then None
    else
      var q := quotes[|quotes| - 1];
      var init := quotes[..|quotes| - 1];
      assert quotes == init + [q];
      if q.symbol == s then Some(q) else LastQuoteFor(init, s)
  }

  /** A fetched symbol's entry is its last quote with the shared timestamp;
      every other entry is unchanged. */
  lemma {:induction false} StoredMeaning(cache: map<string, CacheEntry>, quotes: seq<Quote>, t: int, s: string)
    ensures LastQuoteFor(quotes, s).Some? ==>
              (s in Stored(cache, quotes, t) && Stored(cache, quotes, t)[s] == CacheEntry(LastQuoteFor(quotes, s).value, t))
    ensures LastQuoteFor(quotes, s).None? ==>
              ((s in Stored(cache, quotes, t) <==> s in cache) && (s in cache ==> Stored(cache, quotes, t)[s] == cache[s]))
  {
    if quotes != [] {
      StoredMeaning(cache, quotes[..|quotes| - 1], t, s);
    }
  }

  /** The cached quotes of the requested symbols, in request order; symbols
      without an entry are dropped. */
  function Results(cache: map<string, CacheEntry>, symbols: seq<string>): (r: seq<Quote>)
    ensures |r| <= |symbols|
  {
    if symbols == [] then []
    else
      var s := symbols[|symbols| - 1];
      Results(cache, symbols[..|symbols| - 1]) + (if s in cache then [cache[s].data] else [])
  }

  /** Results keep request order: the results of a joined request are the
      results of its parts, joined. */
  lemma {:induction false} ResultsAppend(cache: map<string, CacheEntry>, xs: seq<string>, ys: seq<string>)
    ensures Results(cache, xs + ys) == Results(cache, xs) + Results(cache, ys)
    decreases |ys|
  {
    if ys == [] {
      assert xs + ys == xs;
    } else {
      var init := ys[..|ys| - 1];
      ResultsAppend(cache, xs, init);
      assert (xs + ys)[..|xs + ys| - 1] == xs + init;
    }
  }

  /** Every requested symbol with an entry, stale or not, contributes its
      cached quote, and nothing else is returned. */
  lemma {:induction false} ResultsMeaning(cache: map<string, CacheEntry>, symbols: seq<string>)
    ensures forall s :: s in symbols && s in cache ==> cache[s].data in Results(cache, symbols)
    ensures forall q :: q in Results(cache, symbols) ==> exists s :: s in symbols && s in cache && cache[s].data == q
  {
    if symbols != [] {
      var init, s := symbols[..|symbols| - 1], symbols[|symbols| - 1];
      ResultsMeaning(cache, init);
      assert symbols == init + [s];
    }
  }

  /** When a non-empty request yields no result, at least its first symbol
      was asked of its source: the "some source was asked" guard on the
      no-data message always holds then. */
  lemma {:induction false} NoResultsMeansAsked(cache: map<string, CacheEntry>, symbols: seq<string>,
                                              now: int, interval: int, quotes: seq<Quote>, t: int)
    requires symbols != [] && Results(Stored(cache, quotes, t), symbols) == []
    ensures symbols[0] in Due(cache, symbols, now, interval, SourceOf(symbols[0]))
  {
    var s := symbols[0];
    ResultsMeaning(Stored(cache, quotes, t), symbols);
    StoredMeaning(cache, quotes, t, s);
    assert s !in Stored(cache, quotes, t);
    DueMeaning(cache, symbols, now, interval, SourceOf(s), s);
  }

  /** The module-level price cache and the fetcher's error text ("" for none). */
  class MarketDataFetcher {
    var cache: map<string, CacheEntry>
    var error: string

    constructor ()
      ensures cache == map[] && error == ""
    {
      cache := map[];
      error := "";
    }

    /** The `symbols.forEach` that fills the three request lists. */
    method SplitStale(symbols: seq<string>, now: int, interval: int) returns (yahoo: seq<string>, tase: seq<string>, crypto: seq<string>)
      ensures yahoo == Due(cache, symbols, now, interval, Yahoo)
      ensures tase == Due(cache, symbols, now, interval, Tase)
      ensures crypto == Due(cache, symbols, now, interval, CoinGecko)
    {
      yahoo, tase, crypto := [], [], [];
      var i := 0;
      while i < |symbols|
        invariant 0 <= i <= |symbols|
        invariant yahoo == Due(cache, symbols[..i], now, interval, Yahoo)
        invariant tase == Due(cache, symbols[..i], now, interval, Tase)
        invariant crypto == Due(cache, symbols[..i], now, interval, CoinGecko)
      {
        var s := symbols[i];
        assert symbols[..i + 1][..i] == symbols[..i];
        assert symbols[..i + 1][i] == s;
        if s !in cache || now - cache[s].timestamp > interval {
          if IsTaseId(s) {
            tase := tase + [s];
          } else if IsPotentialCrypto(s) {
            crypto := crypto + [s];
          } else {
            yahoo := yahoo + [s];
          }
        }
        i := i + 1;
      }
      assert symbols[..i] == symbols;
    }

    /** The `allFetchedQuotes.forEach` that overwrites cache entries. */
    method Store(quotes: seq<Quote>, t: int)
      modifies this
      ensures cache == Stored(old(cache), quotes, t)
      ensures error == old(error)
    {
      var i := 0;
      while i < |quotes|
        invariant 0 <= i <= |quotes|
        invariant cache == Stored(old(cache), quotes[..i], t)
        invariant error == old(error)
      {
        assert quotes[..i + 1][..i] == quotes[..i];
        cache := cache[quotes[i].symbol := CacheEntry(quotes[i], t)];
        i := i + 1;
      }
      assert quotes[..i] == quotes;
    }

    /** `fetchMarketDataForAllSymbols`: splits the stale symbols, asks Yahoo, then
        TASE, then CoinGecko (each only when it has symbols, replying as given),
        stores what came back under `stamp`, and hands the cached quotes of all
        requested symbols to `onDataFetched` (the `delivered` result). With no
        result, the no-data message replaces the error text when some source was
        asked and the handler was created while no error was shown
        (`errorAtRender`, "" for none: the handler reads the `error` state of
        the render it was created in, not the text set during this run). */
    method FetchAll(symbols: Option<seq<string>>, now: int, interval: int, stamp: int, errorAtRender: string,
                    yahooReply: Reply, taseReply: Reply, cryptoReply: Reply)
      returns (delivered: Option<seq<Quote>>)
      modifies this
      ensures symbols.None? || symbols.value == [] ==>
                delivered.None? && cache == old(cache) && error == old(error)
      ensures symbols.Some? && symbols.value != [] ==>
        var ss := symbols.value;
        var y := Due(old(cache), ss, now, interval, Yahoo);
        var ta := Due(old(cache), ss, now, interval, Tase);
        var c := Due(old(cache), ss, now, interval, CoinGecko);
        var fetched := Gather(Gather(Gather([], y, yahooReply), ta, taseReply), c, cryptoReply);
        var err := ErrorAfter(ErrorAfter(ErrorAfter("", y, yahooReply, "Yahoo fetch failed"), ta, taseReply, "TASE fetch failed"), c, cryptoReply, "CoinGecko fetch failed");
        cache == Stored(old(cache), fetched, stamp)
        && (Results(cache, ss) != [] ==> delivered == Some(Results(cache, ss)) && error == err)
        && (Results(cache, ss) == [] ==>
              delivered.None? && error == (if (y != [] || ta != [] || c != []) && errorAtRender == "" then NoDataMessage else err))
    {
      if symbols.None? || |symbols.value| == 0 {
        return None;
      }
      var ss := symbols.value;
      error := "";
      var yahoo, tase, crypto := SplitStale(ss, now, interval);
      var fetched: seq<Quote> := [];
      if |yahoo| > 0 {
        match yahooReply
        case Answered(qs) => fetched := fetched + qs;
        case Failed => error := AppendError(error, "Yahoo fetch failed");
      }
      if |tase| > 0 {
        match taseReply
        case Answered(qs) => fetched := fetched + qs;
        case Failed => error := AppendError(error, "TASE fetch failed");
      }
      if |crypto| > 0 {
        match cryptoReply
        case Answered(qs) => fetched := fetched + qs;
        case Failed => error := AppendError(error, "CoinGecko fetch failed");
      }
      Store(fetched, stamp);
      var results := Results(cache, ss);
      if |results| > 0 {
        delivered := Some(results);
      } else {
        delivered := None;
        if (|yahoo| > 0 || |tase| > 0 || |crypto| > 0) && errorAtRender == "" {
          error := NoDataMessage;
        }
      }
    }
  }
}
