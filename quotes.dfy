/** Daily price bars as the market-data provider returns them, and the small
    arithmetic the dashboard performs on them. */
module Quotes {
  import opened Wrappers

  /** One daily bar: its closing price and traded volume. */
  datatype Bar = Bar(close: real, volume: real)

  function Sum(xs: seq<real>): real {
    if xs == [] then 0.0 else Sum(xs[..|xs| - 1]) + xs[|xs| - 1]
  }

  /** The arithmetic mean, as pandas `Series.mean()` computes it on non-empty data. */
  function Mean(xs: seq<real>): real
    requires xs != []
  {
    Sum(xs) / |xs| as real
  }

  /** The mean lies between the smallest and the largest value. */
  lemma {:induction false} MeanBounds(xs: seq<real>, lo: real, hi: real)
    requires xs != []
    requires forall i :: 0 <= i < |xs| ==> lo <= xs[i] <= hi
    ensures lo <= Mean(xs) <= hi
  {
    SumBounds(xs, lo, hi);
  }

  lemma {:induction false} SumBounds(xs: seq<real>, lo: real, hi: real)
    requires forall i :: 0 <= i < |xs| ==> lo <= xs[i] <= hi
    ensures lo * |xs| as real <= Sum(xs) <= hi * |xs| as real
  {
    if xs != [] {
      SumBounds(xs[..|xs| - 1], lo, hi);
    }
  }

  function Closes(bars: seq<Bar>): (r: seq<real>)
    ensures |r| == |bars| && forall i :: 0 <= i < |bars| ==> r[i] == bars[i].close
  {
    seq(|bars|, i requires 0 <= i < |bars| => bars[i].close)
  }

  function Volumes(bars: seq<Bar>): (r: seq<real>)
    ensures |r| == |bars| && forall i :: 0 <= i < |bars| ==> r[i] == bars[i].volume
  {
    seq(|bars|, i requires 0 <= i < |bars| => bars[i].volume)
  }

  /** `xs.tail(n)` / `xs[-n:]`: the last `n` values, or all of them when there are fewer. */
  function Tail<T>(xs: seq<T>, n: nat): (r: seq<T>)
    ensures |r| == if |xs| < n then |xs| else n
    ensures r == xs[|xs| - |r|..]
  {
    if |xs| <= n then xs else xs[|xs| - n..]
  }

  /** The move from `prev` to `cur` as a percentage of `prev`. */
  function PercentChange(prev: real, cur: real): (r: real)
    requires prev != 0.0
    ensures r * prev == (cur - prev) * 100.0
  {
    (cur - prev) / prev * 100.0
  }

  /** The `{"last", "change"}` record that the home page reads for a symbol. */
  datatype SymbolData = SymbolData(last: Option<real>, change: Option<real>)

  /** `_yf_last_and_change` on the closes of the last two days: `None` stands for the
      `ValueError` raised when the provider returned no rows. The change is a percentage
      of the previous close and is missing when there is no previous close or it is zero. */
  function LastAndChange(closes: seq<real>): (r: Option<SymbolData>)
    ensures r.None? <==> closes == []
    ensures r.Some? ==> r.value.last == Some(closes[|closes| - 1])
    ensures r.Some? ==> (r.value.change.Some? <==> |closes| > 1 && closes[|closes| - 2] != 0.0)
    ensures r.Some? && r.value.change.Some? ==>
      r.value.change.value * closes[|closes| - 2] == (closes[|closes| - 1] - closes[|closes| - 2]) * 100.0
  {
    if closes == [] then None
    else
      var last := closes[|closes| - 1];
      if |closes| > 1 then
        var prev := closes[|closes| - 2];
        Some(SymbolData(Some(last), if prev != 0.0 then Some((last - prev) / prev * 100.0) else None))
      else
        Some(SymbolData(Some(last), None))
  }
}
