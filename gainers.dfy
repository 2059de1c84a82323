/** The forex gainers-and-losers table (`get_forex_gainers_losers`): the ten pairs are
    read in order inside one `try`, pairs with too little history are skipped, and the
    collected records are sorted by daily change, largest first. */
module Gainers {
  import opened Wrappers
  import opened Signals
  import opened Quotes
  import Symbols

  const GainerPairs: seq<string> := ["EURUSD=X", "GBPUSD=X", "USDJPY=X", "USDCHF=X", "AUDUSD=X",
                                     "NZDUSD=X", "USDCAD=X", "EURJPY=X", "GBPJPY=X", "EURGBP=X"]

  /** What the provider returned for one pair's five-day history: it raised, or these
      bars, together with the standard deviation of their daily returns in percent
      (`None` for NaN), which the volatility label reads. */
  datatype PairHistory = HistoryRaised | History(bars: seq<Bar>, volatilityPct: Option<real>)

  /** One row of the table. */
  datatype Performance = Performance(
    pair: string, currentPrice: real, dailyChange: real, weeklyChange: real,
    volumeStatus: Signal, volatility: Signal)

  /** The outcome of one pair's iteration: skipped, a record, or an exception that ends
      the loop (the provider raising, or a division by a zero close). */
  datatype Step = Skip | Add(record: Performance) | Abort

  /** One iteration of the loop for `pair`. */
  function PairStep(pair: string, h: PairHistory): (r: Step)
    ensures r.Skip? <==> h.History? && |h.bars| < 2
    ensures r.Abort? <==> h.HistoryRaised? || (|h.bars| >= 2 && (h.bars[|h.bars| - 2].close == 0.0
                                                || (|h.bars| >= 5 && h.bars[|h.bars| - 5].close == 0.0)))
    ensures r.Add? ==>
      var b := h.bars;
      var cur := b[|b| - 1].close;
      var prev := b[|b| - 2].close;
      var p := r.record;
      && |b| >= 2 && prev != 0.0
      && p.pair == Symbols.StripSuffix(pair)
      && p.currentPrice == cur
      && p.dailyChange * prev == (cur - prev) * 100.0
      && (|b| < 5 ==> p.weeklyChange == p.dailyChange)
      && (|b| >= 5 ==> p.weeklyChange * b[|b| - 5].close == (cur - b[|b| - 5].close) * 100.0)
      && p.volumeStatus == VolumeStatus(b[|b| - 1].volume, Mean(Volumes(b)))
      && p.volatility == VolatilitySignal(|b|, h.volatilityPct)
  {
    match h
    case HistoryRaised => Abort
    case History(b, pct) =>
      if |b| < 2 then Skip
      else
        var cur := b[|b| - 1].close;
        var prev := b[|b| - 2].close;
        if prev == 0.0 then Abort
        else
          var daily := (cur - prev) / prev * 100.0;
          if |b| >= 5 && b[|b| - 5].close == 0.0 then Abort
          else
            var weekly := if |b| >= 5 then (cur - b[|b| - 5].close) / b[|b| - 5].close * 100.0 else daily;
            Add(Performance(Symbols.StripSuffix(pair), cur, daily, weekly,
                            VolumeStatus(b[|b| - 1].volume, Mean(Volumes(b))),
                            VolatilitySignal(|b|, pct)))
  }

  /** The records the loop collects from `pairs`, in order, up to the first exception. */
  function Collected(pairs: seq<string>, fetch: string -> PairHistory): seq<Performance>
  {
    if pairs == [] then []
    else
      match PairStep(pairs[0], fetch(pairs[0]))
      case Abort => []
      case Skip => Collected(pairs[1..], fetch)
      case Add(p) => [p] + Collected(pairs[1..], fetch)
  }

  /** `row` is the record that some pair of `pairs` produces. */
  predicate FromSomePair(pairs: seq<string>, fetch: string -> PairHistory, row: Performance) {
    exists i :: 0 <= i < |pairs| && PairStep(pairs[i], fetch(pairs[i])) == Add(row)
  }

  /** Every collected record is the record of some pair of the list. */
  lemma {:induction false} CollectedFromPairs(pairs: seq<string>, fetch: string -> PairHistory)
    ensures forall k :: 0 <= k < |Collected(pairs, fetch)| ==> FromSomePair(pairs, fetch, Collected(pairs, fetch)[k])
  {
    if pairs != [] {
      CollectedFromPairs(pairs[1..], fetch);
      var c := Collected(pairs, fetch);
      var rest := Collected(pairs[1..], fetch);
      forall k | 0 <= k < |rest| ensures FromSomePair(pairs, fetch, rest[k]) {
        var i :| 0 <= i < |pairs| - 1 && PairStep(pairs[1..][i], fetch(pairs[1..][i])) == Add(rest[k]);
        assert pairs[i + 1] == pairs[1..][i];
      }
      var step := PairStep(pairs[0], fetch(pairs[0]));
      if step.Add? {
        assert c == [step.record] + rest;
        assert FromSomePair(pairs, fetch, c[0]);
        assert forall k :: 1 <= k < |c| ==> c[k] == rest[k - 1];
      } else if step.Skip? {
        assert c == rest;
      } else {
        assert c == [];
      }
    }
  }

  /** The table is ordered by daily change, largest first. */
  predicate SortedByChange(s: seq<Performance>) {
    forall i, j :: 0 <= i < j < |s| ==> s[i].dailyChange >= s[j].dailyChange
  }

  /** Inserts `x` before the first record whose daily change is not larger, so `x` comes
      before the records it ties with. */
  function Insert(x: Performance, s: seq<Performance>): (r: seq<Performance>)
    ensures multiset(r) == multiset(s) + multiset{x}
  {
    if s == [] then [x]
    else if s[0].dailyChange <= x.dailyChange then [x] + s
    else
      assert s == [s[0]] + s[1..];
      [s[0]] + Insert(x, s[1..])
  }

  /** Inserting into an ordered table keeps it ordered. */
  lemma {:induction false} InsertSorted(x: Performance, s: seq<Performance>)
    requires SortedByChange(s)
    ensures SortedByChange(Insert(x, s))
  {
    if s != [] && !(s[0].dailyChange <= x.dailyChange) {
      var tail := Insert(x, s[1..]);
      InsertSorted(x, s[1..]);
      forall j | 0 <= j < |tail| ensures s[0].dailyChange >= tail[j].dailyChange {
        assert tail[j] in multiset(s[1..]) + multiset{x};
        if tail[j] != x {
          assert tail[j] in s[1..];
        }
      }
    }
  }

  /** The records whose daily change is `c`, in order. */
  function WithChange(s: seq<Performance>, c: real): seq<Performance> {
    if s == [] then []
    else (if s[0].dailyChange == c then [s[0]] else []) + WithChange(s[1..], c)
  }

  /** Inserting `x` puts it first among the records it ties with and leaves every other
      tie group as it was. */
  lemma {:induction false} InsertTies(x: Performance, s: seq<Performance>, c: real)
    ensures WithChange(Insert(x, s), c) == (if x.dailyChange == c then [x] else []) + WithChange(s, c)
  {
    if s == [] {
      WithChangeCons(x, [], c);
    } else if s[0].dailyChange <= x.dailyChange {
      WithChangeCons(x, s, c);
    } else {
      var t := Insert(x, s[1..]);
      InsertTies(x, s[1..], c);
      WithChangeCons(s[0], t, c);
      WithChangeCons(s[0], s[1..], c);
      assert s == [s[0]] + s[1..];
      assert s[0].dailyChange != c || x.dailyChange != c;
    }
  }

  lemma WithChangeCons(a: Performance, s: seq<Performance>, c: real)
    ensures WithChange([a] + s, c) == (if a.dailyChange == c then [a] else []) + WithChange(s, c)
  {
    assert ([a] + s)[1..] == s;
  }

  /** The records sorted by daily change, largest first, equal changes in their original
      order. */
  function SortByChange(s: seq<Performance>): (r: seq<Performance>)
    ensures multiset(r) == multiset(s)
    ensures SortedByChange(r)
  {
    if s == [] then []
    else
      assert s == [s[0]] + s[1..];
      InsertSorted(s[0], SortByChange(s[1..]));
      Insert(s[0], SortByChange(s[1..]))
  }

  /** The sort is stable: for every daily change, the records with that change appear in
      the same order as in the input, as with Python's `sort(reverse=True)`. */
  lemma {:induction false} SortStable(s: seq<Performance>, c: real)
    ensures WithChange(SortByChange(s), c) == WithChange(s, c)
  {
    if s != [] {
      SortStable(s[1..], c);
      InsertTies(s[0], SortByChange(s[1..]), c);
    }
  }

  /** Two rows with the same daily change keep their order. */
  lemma TieKeepsOrder(a: Performance, b: Performance)
    requires a.dailyChange == b.dailyChange
    ensures SortByChange([a, b]) == [a, b]
  {
    assert [a, b][1..] == [b];
    assert [b][1..] == [];
  }

  /** The collecting loop: one `PairStep` per pair, in order, until the first exception. */
  method CollectPerformance(pairs: seq<string>, fetch: string -> PairHistory) returns (data: seq<Performance>)
    ensures data == Collected(pairs, fetch)
  {
    data := [];
    var i := 0;
    while i < |pairs|
      invariant 0 <= i <= |pairs|
      invariant data + Collected(pairs[i..], fetch) == Collected(pairs, fetch)
      decreases |pairs| - i
    {
      var pair := pairs[i];
      var step := PairStep(pair, fetch(pair));
      assert pairs[i..][1..] == pairs[i + 1..];
      if step.Abort? {
        break;
      }
      if step.Add? {
        data := data + [step.record];
      }
      i := i + 1;
    }
  }

  /** The getter's work on a cache miss, with the provider supplied as `fetch`: collect,
      then sort in place. */
  method ForexGainersLosers(fetch: string -> PairHistory) returns (data: seq<Performance>)
    ensures SortedByChange(data)
    ensures multiset(data) == multiset(Collected(GainerPairs, fetch))
    ensures data == SortByChange(Collected(GainerPairs, fetch))
    ensures forall c :: WithChange(data, c) == WithChange(Collected(GainerPairs, fetch), c)
  {
    data := CollectPerformance(GainerPairs, fetch);
    data := SortByChange(data);
    forall c ensures WithChange(data, c) == WithChange(Collected(GainerPairs, fetch), c) {
      SortStable(Collected(GainerPairs, fetch), c);
    }
  }

  /** Every row of the table comes from one of the ten pairs with at least two bars, and
      its weekly change is its daily change when there are fewer than five. */
  lemma RowsHaveHistory(fetch: string -> PairHistory, row: Performance)
    requires row in SortByChange(Collected(GainerPairs, fetch))
    ensures exists i :: (0 <= i < |GainerPairs| &&
      PairStep(GainerPairs[i], fetch(GainerPairs[i])) == Add(row) &&
      |fetch(GainerPairs[i]).bars| >= 2 &&
      (|fetch(GainerPairs[i]).bars| < 5 ==> row.weeklyChange == row.dailyChange))
  {
    var c := Collected(GainerPairs, fetch);
    assert row in multiset(c);
    var k :| 0 <= k < |c| && c[k] == row;
    CollectedFromPairs(GainerPairs, fetch);
  }
}
