/** Symbol naming at the provider boundary, the global symbol search, and the
    `Insight #<id>` back-references that trades carry (finance_dashboard/views.py). */
module Symbols {
  import opened Wrappers
  import opened Text
  import opened Quotes

  /** The supported currency pairs, in the order the search lists them. */
  const ForexSymbols: seq<string> := ["EURUSD", "GBPUSD", "USDJPY", "USDCHF", "AUDUSD", "USDCAD", "NZDUSD"]

  /** The supported stocks, in the order the search lists them. */
  const StockSymbols: seq<string> := ["AAPL", "GOOGL", "MSFT", "TSLA", "AMZN", "NVDA", "META"]

  /** The ticker the provider expects for a currency pair: the pair with `=X` appended,
      unless it already ends that way. */
  function ProviderSymbol(pair: string): (r: string)
    ensures EndsWith(r, "=X")
    ensures EndsWith(pair, "=X") ==> r == pair
    ensures !EndsWith(pair, "=X") ==> r == pair + "=X"
  {
    if EndsWith(pair, "=X") then pair
    else
      var r := pair + "=X";
      assert r[|r| - 2..] == "=X";
      r
  }

  /** Adding the suffix twice is the same as adding it once. */
  lemma ProviderSymbolIdempotent(pair: string)
    ensures ProviderSymbol(ProviderSymbol(pair)) == ProviderSymbol(pair)
  {
  }

  /** The display form of a provider ticker: `s.replace('=X', '')`. */
  function StripSuffix(s: string): (r: string)
    ensures |r| <= |s|
  {
    ReplaceAll(s, "=X", "")
  }

  /** Stripping undoes appending the suffix to any name without an `=`. */
  lemma {:induction false} StripAppended(p: string)
    requires forall i :: 0 <= i < |p| ==> p[i] != '='
    ensures StripSuffix(p + "=X") == p
    decreases |p|
  {
    if p == [] {
      assert p + "=X" == "=X";
    } else {
      var s := p + "=X";
      assert !StartsWith(s, "=X") by { assert s[0] == p[0]; }
      assert s[1..] == p[1..] + "=X";
      StripAppended(p[1..]);
    }
  }

  /** The translation to provider tickers is lossless on every supported pair. */
  lemma SupportedPairsRoundTrip(p: string)
    requires p in ForexSymbols
    ensures StripSuffix(ProviderSymbol(p)) == p
  {
    assert |p| == 6 && forall i :: 0 <= i < |p| ==> 'A' <= p[i] <= 'Z';
    assert !EndsWith(p, "=X");
    StripAppended(p);
  }

  datatype AssetKind = Forex | Stock

  /** The ticker the search asks the provider for: only currency pairs get the suffix. */
  function SearchProviderSymbol(symbol: string, kind: AssetKind): (r: string)
    ensures kind == Stock ==> r == symbol
    ensures kind == Forex ==> r == ProviderSymbol(symbol)
  {
    if kind == Forex && !EndsWith(symbol, "=X") then symbol + "=X" else symbol
  }

  datatype Volume = HighVolume | MediumVolume | LowVolume | NoVolume

  /** The volume category of a search hit, from the mean daily volume. */
  function VolumeCategory(avg: real): (v: Volume)
    ensures v == HighVolume <==> avg > 1000000.0
    ensures v == MediumVolume <==> 100000.0 < avg <= 1000000.0
    ensures v == LowVolume <==> avg <= 100000.0
  {
    if avg > 1000000.0 then HighVolume
    else if avg > 100000.0 then MediumVolume
    else LowVolume
  }

  datatype SearchData = SearchData(last: real, change: real, history: seq<real>, volume: Volume)

  /** What the search shows when the provider fails or returns nothing. */
  const FallbackSearchData := SearchData(0.0, 0.0, [0.0, 0.0, 0.0, 0.0, 0.0], NoVolume)

  /** The provider's answer for the last five days: a raised error or the bars. */
  datatype SearchFetch = SearchRaised | SearchBars(bars: seq<Bar>)

  /** The search's one-day change: a percentage of the previous close when there is a
      non-zero one, else 0. */
  function SearchChange(bars: seq<Bar>): (c: real)
    requires bars != []
    ensures |bars| > 1 && bars[|bars| - 2].close != 0.0 ==>
      c * bars[|bars| - 2].close == (bars[|bars| - 1].close - bars[|bars| - 2].close) * 100.0
    ensures |bars| == 1 || bars[|bars| - 2].close == 0.0 ==> c == 0.0
  {
    if |bars| > 1 && bars[|bars| - 2].close != 0.0 then
      PercentChange(bars[|bars| - 2].close, bars[|bars| - 1].close)
    else 0.0
  }

  /** The search record for a non-empty answer. */
  function BarsSearchData(bars: seq<Bar>): (d: SearchData)
    requires bars != []
    ensures d.last == bars[|bars| - 1].close && d.change == SearchChange(bars)
    ensures d.history == Tail(Closes(bars), 5) && d.volume == VolumeCategory(Mean(Volumes(bars)))
  {
    SearchData(bars[|bars| - 1].close, SearchChange(bars), Tail(Closes(bars), 5),
               VolumeCategory(Mean(Volumes(bars))))
  }

  /** `get_real_search_data` once the provider has answered. */
  function RealSearchData(fetch: SearchFetch): (d: SearchData)
    ensures fetch.SearchRaised? || fetch.bars == [] ==> d == FallbackSearchData
    ensures fetch.SearchBars? && fetch.bars != [] ==>
      d.last == fetch.bars[|fetch.bars| - 1].close
      && d.volume == VolumeCategory(Mean(Volumes(fetch.bars)))
      && d.history == Tail(Closes(fetch.bars), 5)
      && |d.history| == (if |fetch.bars| < 5 then |fetch.bars| else 5)
      && d.change == SearchChange(fetch.bars)
    ensures d.volume == NoVolume <==> d == FallbackSearchData
  {
    match fetch
    case SearchRaised => FallbackSearchData
    case SearchBars(bars) =>
      if bars == [] then FallbackSearchData
      else BarsSearchData(bars)
  }

  datatype SearchResult = SearchResult(pair: string, data: SearchData, kind: AssetKind)

  function Hit(symbol: string, kind: AssetKind, fetch: string -> SearchFetch): SearchResult {
    SearchResult(symbol, RealSearchData(fetch(SearchProviderSymbol(symbol, kind))), kind)
  }

  /** The hits among `symbols` for `query`, in list order. */
  function Found(symbols: seq<string>, query: string, kind: AssetKind, fetch: string -> SearchFetch): (r: seq<SearchResult>)
    ensures forall k :: 0 <= k < |r| ==> r[k].kind == kind
  {
    if symbols == [] then []
    else
      var last := symbols[|symbols| - 1];
      Found(symbols[..|symbols| - 1], query, kind, fetch)
      + (if Contains(last, query) then [Hit(last, kind, fetch)] else [])
  }

  /** A list's hits are the hits of its parts, in order. */
  lemma {:induction false} FoundConcat(a: seq<string>, b: seq<string>, query: string, kind: AssetKind,
                                       fetch: string -> SearchFetch)
    ensures Found(a + b, query, kind, fetch) == Found(a, query, kind, fetch) + Found(b, query, kind, fetch)
    decreases |b|
  {
    if b == [] {
      assert a + b == a;
    } else {
      var b0 := b[..|b| - 1];
      assert (a + b)[..|a + b| - 1] == a + b0;
      FoundConcat(a, b0, query, kind, fetch);
    }
  }

  /** A single symbol is a hit iff it contains the query. */
  lemma FoundSingle(s: string, query: string, kind: AssetKind, fetch: string -> SearchFetch)
    ensures Found([s], query, kind, fetch) == if Contains(s, query) then [Hit(s, kind, fetch)] else []
  {
    assert [s][..0] == [];
  }

  /** The results of the global search for an already upper-cased query. */
  function SearchResults(query: string, fetch: string -> SearchFetch): seq<SearchResult> {
    if query == "" then []
    else Found(ForexSymbols, query, Forex, fetch) + Found(StockSymbols, query, Stock, fetch)
  }

  /** One of the two search loops: the hits among `symbols`, in list order. */
  method SearchList(symbols: seq<string>, query: string, kind: AssetKind, fetch: string -> SearchFetch)
    returns (results: seq<SearchResult>)
    ensures results == Found(symbols, query, kind, fetch)
  {
    results := [];
    for i := 0 to |symbols|
      invariant results == Found(symbols[..i], query, kind, fetch)
    {
      assert symbols[..i + 1][..i] == symbols[..i];
      if Contains(symbols[i], query) {
        var data := RealSearchData(fetch(SearchProviderSymbol(symbols[i], kind)));
        results := results + [SearchResult(symbols[i], data, kind)];
      }
    }
    assert symbols[..|symbols|] == symbols;
  }

  /** `search_view`: the query is upper-cased; an empty query finds nothing; currency pairs
      are searched before stocks, each list in order. */
  method SearchView(rawQuery: string, fetch: string -> SearchFetch) returns (results: seq<SearchResult>)
    ensures results == SearchResults(Upper(rawQuery), fetch)
  {
    var query := Upper(rawQuery);
    results := [];
    if query != "" {
      var forex := SearchList(ForexSymbols, query, Forex, fetch);
      var stocks := SearchList(StockSymbols, query, Stock, fetch);
      results := forex + stocks;
    }
  }

  /** Some result is for `s`. */
  predicate Lists(r: seq<SearchResult>, s: string) {
    exists k :: 0 <= k < |r| && r[k].pair == s
  }

  /** A symbol is found exactly when it is listed and contains the query. */
  lemma {:induction false} FoundMembers(symbols: seq<string>, query: string, kind: AssetKind,
                                        fetch: string -> SearchFetch, s: string)
    ensures Lists(Found(symbols, query, kind, fetch), s) <==> s in symbols && Contains(s, query)
  {
    var r := Found(symbols, query, kind, fetch);
    if symbols != [] {
      var init := symbols[..|symbols| - 1];
      var last := symbols[|symbols| - 1];
      FoundMembers(init, query, kind, fetch, s);
      var r0 := Found(init, query, kind, fetch);
      assert symbols == init + [last];
      if s in symbols && Contains(s, query) {
        if s == last {
          assert r[|r| - 1].pair == s;
        } else {
          assert s in init;
          var k :| 0 <= k < |r0| && r0[k].pair == s;
          assert r[k] == r0[k];
        }
      }
      if exists k :: 0 <= k < |r| && r[k].pair == s {
        var k :| 0 <= k < |r| && r[k].pair == s;
        if k < |r0| {
          assert r[k] == r0[k];
        } else {
          assert r[k] == Hit(last, kind, fetch);
        }
      }
    }
  }

  /** The search returns exactly the supported symbols containing the query, and nothing
      for an empty query. */
  lemma SearchFindsExactly(query: string, fetch: string -> SearchFetch, s: string)
    ensures query == "" ==> SearchResults(query, fetch) == []
    ensures Lists(SearchResults(query, fetch), s)
        <==> query != "" && (s in ForexSymbols || s in StockSymbols) && Contains(s, query)
  {
    if query != "" {
      FoundMembers(ForexSymbols, query, Forex, fetch, s);
      FoundMembers(StockSymbols, query, Stock, fetch, s);
      ListsConcat(Found(ForexSymbols, query, Forex, fetch), Found(StockSymbols, query, Stock, fetch), s);
    }
  }

  lemma ListsConcat(f: seq<SearchResult>, g: seq<SearchResult>, s: string)
    ensures Lists(f + g, s) <==> Lists(f, s) || Lists(g, s)
  {
    var r := f + g;
    if Lists(r, s) {
      var k :| 0 <= k < |r| && r[k].pair == s;
      if k < |f| { assert f[k] == r[k]; } else { assert g[k - |f|] == r[k]; }
    }
    if Lists(f, s) {
      var k :| 0 <= k < |f| && f[k].pair == s;
      assert r[k] == f[k];
    }
    if Lists(g, s) {
      var k :| 0 <= k < |g| && g[k].pair == s;
      assert r[|f| + k] == g[k];
    }
  }

  /** Currency pairs come before stocks in the results. */
  lemma SearchForexFirst(query: string, fetch: string -> SearchFetch, i: nat, j: nat)
    requires i < j < |SearchResults(query, fetch)|
    requires SearchResults(query, fetch)[j].kind == Forex
    ensures SearchResults(query, fetch)[i].kind == Forex
  {
    var f := Found(ForexSymbols, query, Forex, fetch);
    var g := Found(StockSymbols, query, Stock, fetch);
    assert SearchResults(query, fetch) == f + g;
    assert (f + g)[i] == f[i];
  }

  /** The marker that `trade_insight_modal` writes into a trade's `ref`. */
  const RefMarker := "Insight #"

  /** The insight id a trade's `ref` names, as the portfolio page parses it: the marker
      must occur, and what is left once every marker is removed and the whitespace stripped
      must be all digits. */
  function RefInsightId(ref: string): (r: Option<nat>)
    ensures r.Some? ==> Contains(ref, RefMarker)
    ensures r.Some? ==> var id := Strip(ReplaceAll(ref, RefMarker, "")); IsDigits(id) && r.value == ParseNat(id)
    ensures Contains(ref, RefMarker) && IsDigits(Strip(ReplaceAll(ref, RefMarker, ""))) ==>
      r == Some(ParseNat(Strip(ReplaceAll(ref, RefMarker, ""))))
  {
    if ref != "" && Contains(ref, RefMarker) then
      var id := Strip(ReplaceAll(ref, RefMarker, ""));
      if IsDigits(id) then Some(ParseNat(id)) else None
    else None
  }

  /** The insight that a trade is shown as referring to: the parsed id, if an insight with
      that id exists. */
  function ResolveRefInsight(ref: string, existing: set<nat>): (r: Option<nat>)
    ensures r.Some? ==> r.value in existing && RefInsightId(ref) == r
    ensures r.None? ==> RefInsightId(ref).None? || RefInsightId(ref).value !in existing
  {
    match RefInsightId(ref)
    case Some(id) => if id in existing then Some(id) else None
    case None => None
  }

  /** Removing a leading pattern from a string that does not otherwise contain it. */
  lemma ReplaceLeading(pat: string, d: string)
    requires pat != "" && !Contains(d, pat)
    ensures ReplaceAll(pat + d, pat, "") == d
  {
    var s := pat + d;
    assert StartsWith(s, pat);
    assert s[|pat|..] == d;
    ReplaceAbsent(d, pat, "");
  }

  /** A reference written as `"Insight #" + str(id)` is read back as that id. */
  lemma RefRoundTrip(id: nat)
    ensures RefInsightId(RefMarker + NatToString(id)) == Some(id)
  {
    var d := NatToString(id);
    var ref := RefMarker + d;
    assert Contains(ref, RefMarker) by { assert StartsWith(ref, RefMarker); }
    AbsentFirstChar(d, RefMarker);
    ReplaceLeading(RefMarker, d);
    StripTrimmed(d);
    ParseShow(id);
  }

  /** A `ref` without the marker never names an insight. */
  lemma RefWithoutMarker(ref: string)
    requires !Contains(ref, RefMarker)
    ensures RefInsightId(ref) == None
  {
  }
}
