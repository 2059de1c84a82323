/** The shared key-value cache and the read-through getters built on it
    (`get_symbol_data`, and the `cache.get` / `cache.set` bracketing of the technical,
    macro and gainers getters). A cached value counts as a hit only when it is truthy;
    on a miss the provider is consulted, which the `fetched` out-parameter records. */
module MarketCache {
  import opened Wrappers
  import opened Text
  import Quotes
  import Technical
  import Macro
  import Gainers

  /** The values the getters store. */
  datatype CacheValue =
    | SymbolValue(data: Quotes.SymbolData)
    | TechnicalValue(payload: Technical.TechPayload)
    | MacroValue(snapshot: Macro.Snapshot)
    | GainersValue(rows: seq<Gainers.Performance>)

  /** Python truthiness of the stored value: the symbol and technical records are
      non-empty dictionaries; a snapshot or a table is truthy only when non-empty. */
  predicate Truthy(v: CacheValue) {
    match v
    case SymbolValue(_) => true
    case TechnicalValue(_) => true
    case MacroValue(m) => m != map[]
    case GainersValue(rows) => rows != []
  }

  const SymbolPrefix: string := "symbol_"
  const TechnicalPrefix: string := "technical_"
  const MacroKey: string := "macro_data_analysis"
  const GainersKey: string := "forex_gainers_losers"

  function SymbolKey(symbol: string): (k: string)
    ensures StartsWith(k, SymbolPrefix) && k[|SymbolPrefix|..] == symbol
  {
    SymbolPrefix + symbol
  }

  function TechnicalKey(pair: string, period: string): (k: string)
    ensures StartsWith(k, TechnicalPrefix) && EndsWith(k, "_" + period)
    ensures |k| == |TechnicalPrefix| + |pair| + 1 + |period|
    ensures k[|TechnicalPrefix|..|k| - |period| - 1] == pair
  {
    var k := TechnicalPrefix + pair + "_" + period;
    assert k[|k| - |"_" + period|..] == "_" + period;
    assert k[|TechnicalPrefix|..|k| - |period| - 1] == pair;
    k
  }

  /** Different pairs read with the same period never share a cache entry. */
  lemma TechnicalKeysSeparatePairs(p1: string, p2: string, period: string)
    requires p1 != p2
    ensures TechnicalKey(p1, period) != TechnicalKey(p2, period)
  {
    if |p1| == |p2| {
      var k1, k2 := TechnicalKey(p1, period), TechnicalKey(p2, period);
      assert k1[|TechnicalPrefix|..|k1| - |period| - 1] == p1;
      assert k2[|TechnicalPrefix|..|k2| - |period| - 1] == p2;
    }
  }

  /** Each getter's keys hold the kind of value that getter stores. */
  predicate WellTyped(key: string, v: CacheValue) {
    && (StartsWith(key, SymbolPrefix) ==> v.SymbolValue?)
    && (StartsWith(key, TechnicalPrefix) ==> v.TechnicalValue?)
    && (key == MacroKey ==> v.MacroValue?)
    && (key == GainersKey ==> v.GainersValue?)
  }

  /** The four key families are told apart by their first character. */
  lemma KeyFamilies(key: string, v: CacheValue)
    requires key != []
    ensures key[0] == 's' && v.SymbolValue? ==> WellTyped(key, v)
    ensures key[0] == 't' && v.TechnicalValue? ==> WellTyped(key, v)
    ensures key[0] == 'm' && v.MacroValue? ==> WellTyped(key, v)
    ensures key[0] == 'f' && v.GainersValue? ==> WellTyped(key, v)
  {
    assert StartsWith(key, SymbolPrefix) ==> key[0] == SymbolPrefix[0];
    assert StartsWith(key, TechnicalPrefix) ==> key[0] == TechnicalPrefix[0];
  }

  /** The value a read-through getter returns without fetching, if any. */
  function Hit(entries: map<string, CacheValue>, key: string): (r: Option<CacheValue>)
    ensures r.Some? <==> key in entries && Truthy(entries[key])
    ensures r.Some? ==> r.value == entries[key]
  {
    if key in entries && Truthy(entries[key]) then Some(entries[key]) else None
  }

  class Cache {
    var entries: map<string, CacheValue>

    predicate Valid()
      reads this
    {
      forall k :: k in entries ==> WellTyped(k, entries[k])
    }

    constructor()
      ensures entries == map[] && Valid()
    {
      entries := map[];
    }

    /** `cache.get(key)`: `None` on a miss. */
    method Get(key: string) returns (v: Option<CacheValue>)
      ensures v.Some? <==> key in entries
      ensures v.Some? ==> v.value == entries[key]
    {
      v := if key in entries then Some(entries[key]) else None;
    }

    /** `cache.set(key, v)`; the expiry time is not modelled. */
    method Set(key: string, v: CacheValue)
      requires Valid() && WellTyped(key, v)
      modifies this
      ensures entries == old(entries)[key := v] && Valid()
    {
      entries := entries[key := v];
    }

    /** `get_symbol_data`: `provider` is what `_yf_last_and_change` saw, `None` when the
        provider raised on every attempt. A failure returns the empty record and stores
        nothing. */
    method GetSymbolData(symbol: string, provider: Option<seq<real>>) returns (data: Quotes.SymbolData, fetched: bool)
      requires Valid()
      modifies this
      ensures Valid()
      ensures var key := SymbolKey(symbol);
        var hit := Hit(old(entries), key);
        var got := if provider.Some? then Quotes.LastAndChange(provider.value) else None;
        if hit.Some? then
          !fetched && data == hit.value.data && entries == old(entries)
        else if got.Some? then
          fetched && data == got.value && entries == old(entries)[key := SymbolValue(got.value)]
        else
          fetched && data == Quotes.SymbolData(None, None) && entries == old(entries)
    {
      var key := SymbolKey(symbol);
      var cached := Get(key);
      if cached.Some? && Truthy(cached.value) {
        return cached.value.data, false;
      }
      fetched := true;
      var got := if provider.Some? then Quotes.LastAndChange(provider.value) else None;
      if got.None? {
        return Quotes.SymbolData(None, None), true;
      }
      data := got.value;
      KeyFamilies(key, SymbolValue(data));
      Set(key, SymbolValue(data));
    }

    /** `get_technical_analysis` with its cache: an unavailable analysis is not stored. */
    method GetTechnicalAnalysis(pair: string, period: string, fetch: Technical.TechFetch)
      returns (r: Option<Technical.TechPayload>, fetched: bool)
      requires Valid()
      modifies this
      ensures Valid()
      ensures var key := TechnicalKey(pair, period);
        var hit := Hit(old(entries), key);
        var got := Technical.TechnicalAnalysis(pair, fetch);
        if hit.Some? then
          !fetched && r == Some(hit.value.payload) && entries == old(entries)
        else
          && fetched && r == got
          && entries == (if got.Some? then old(entries)[key := TechnicalValue(got.value)] else old(entries))
    {
      var key := TechnicalKey(pair, period);
      var cached := Get(key);
      if cached.Some? && Truthy(cached.value) {
        return Some(cached.value.payload), false;
      }
      fetched := true;
      r := Technical.TechnicalAnalysis(pair, fetch);
      if r.Some? {
        KeyFamilies(key, TechnicalValue(r.value));
        Set(key, TechnicalValue(r.value));
      }
    }

    /** `get_macro_data` with its cache: the snapshot is always stored. */
    method GetMacroData(inp: Macro.MacroInputs) returns (m: Macro.Snapshot, fetched: bool)
      requires Valid()
      modifies this
      ensures Valid()
      ensures var hit := Hit(old(entries), MacroKey);
        if hit.Some? then
          !fetched && m == hit.value.snapshot && entries == old(entries)
        else
          fetched && m == Macro.MacroData(inp) && entries == old(entries)[MacroKey := MacroValue(m)]
    {
      var cached := Get(MacroKey);
      if cached.Some? && Truthy(cached.value) {
        return cached.value.snapshot, false;
      }
      fetched := true;
      m := Macro.MacroData(inp);
      KeyFamilies(MacroKey, MacroValue(m));
      Set(MacroKey, MacroValue(m));
    }

    /** `get_forex_gainers_losers` with its cache: the table is stored even when empty. */
    method GetForexGainersLosers(fetch: string -> Gainers.PairHistory)
      returns (rows: seq<Gainers.Performance>, fetched: bool)
      requires Valid()
      modifies this
      ensures Valid()
      ensures var hit := Hit(old(entries), GainersKey);
        if hit.Some? then
          !fetched && rows == hit.value.rows && entries == old(entries)
        else
          && fetched && rows == Gainers.SortByChange(Gainers.Collected(Gainers.GainerPairs, fetch))
          && entries == old(entries)[GainersKey := GainersValue(rows)]
    {
      var cached := Get(GainersKey);
      if cached.Some? && Truthy(cached.value) {
        return cached.value.rows, false;
      }
      fetched := true;
      rows := Gainers.ForexGainersLosers(fetch);
      KeyFamilies(GainersKey, GainersValue(rows));
      Set(GainersKey, GainersValue(rows));
    }
  }

  /** Two requests for the same symbol: when the first one could read the provider, the
      second is served from the cache without fetching and returns the same record. */
  method SymbolTwice(c: Cache, symbol: string, provider: Option<seq<real>>, later: Option<seq<real>>)
    returns (first: Quotes.SymbolData, second: Quotes.SymbolData, fetchedAgain: bool)
    requires c.Valid()
    requires provider.Some? && provider.value != []
    modifies c
    ensures !fetchedAgain && second == first
  {
    var f1;
    first, f1 := c.GetSymbolData(symbol, provider);
    second, fetchedAgain := c.GetSymbolData(symbol, later);
  }

  /** Two requests for the snapshot: the second is always served from the cache, because
      a computed snapshot is never empty. */
  method MacroTwice(c: Cache, inp: Macro.MacroInputs, later: Macro.MacroInputs)
    returns (first: Macro.Snapshot, second: Macro.Snapshot, fetchedAgain: bool)
    requires c.Valid()
    modifies c
    ensures !fetchedAgain && second == first
  {
    var f1;
    first, f1 := c.GetMacroData(inp);
    second, fetchedAgain := c.GetMacroData(later);
  }

  /** Two requests for the gainers table: an empty table is stored but is not a hit, so
      the second request fetches again. */
  method GainersTwice(c: Cache, fetch: string -> Gainers.PairHistory, later: string -> Gainers.PairHistory)
    returns (first: seq<Gainers.Performance>, second: seq<Gainers.Performance>, fetchedAgain: bool)
    requires c.Valid()
    requires Gainers.Collected(Gainers.GainerPairs, fetch) == []
    requires GainersKey !in c.entries || !Truthy(c.entries[GainersKey])
    modifies c
    ensures first == [] && fetchedAgain
  {
    var f1;
    first, f1 := c.GetForexGainersLosers(fetch);
    second, fetchedAgain := c.GetForexGainersLosers(later);
  }
}
