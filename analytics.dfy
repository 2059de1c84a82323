/** The portfolio analytics of the portfolio page (`compute_portfolio_analytics`) and
    the per-symbol trade metrics of the details page. Floats are `real`; the rounding and
    the text formatting of the figures are not modelled. */
module Analytics {
  import opened Wrappers
  import opened Quotes
  import Models

  /** The values of `xs` that are strictly positive, in order. */
  function Wins(xs: seq<real>): (r: seq<real>)
    ensures |r| <= |xs|
    ensures forall i :: 0 <= i < |r| ==> r[i] > 0.0
  {
    if xs == [] then []
    else
      Wins(xs[..|xs| - 1]) + (if xs[|xs| - 1] > 0.0 then [xs[|xs| - 1]] else [])
  }

  /** The values of `xs` that are strictly negative, in order. */
  function Losses(xs: seq<real>): (r: seq<real>)
    ensures |r| <= |xs|
    ensures forall i :: 0 <= i < |r| ==> r[i] < 0.0
  {
    if xs == [] then []
    else
      Losses(xs[..|xs| - 1]) + (if xs[|xs| - 1] < 0.0 then [xs[|xs| - 1]] else [])
  }

  /** The wins are exactly the positive values and the losses exactly the negative ones,
      each taken from `xs` exactly as often as it occurs there. */
  lemma {:induction false} WinsAndLossesFilter(xs: seq<real>)
    ensures forall x :: x in Wins(xs) <==> x in xs && x > 0.0
    ensures forall x :: x in Losses(xs) <==> x in xs && x < 0.0
    ensures multiset(Wins(xs)) <= multiset(xs) && multiset(Losses(xs)) <= multiset(xs)
    ensures forall x :: multiset(Wins(xs))[x] == if x > 0.0 then multiset(xs)[x] else 0
    ensures forall x :: multiset(Losses(xs))[x] == if x < 0.0 then multiset(xs)[x] else 0
  {
    if xs != [] {
      var init := xs[..|xs| - 1];
      assert xs == init + [xs[|xs| - 1]];
      WinsAndLossesFilter(init);
    }
  }

  /** A value is never both a win and a loss, so together they number at most the trades. */
  lemma {:induction false} WinsAndLossesFit(xs: seq<real>)
    ensures |Wins(xs)| + |Losses(xs)| <= |xs|
  {
    if xs != [] {
      WinsAndLossesFit(xs[..|xs| - 1]);
    }
  }

  /** `np.mean(xs) if xs else 0` */
  function MeanOrZero(xs: seq<real>): real {
    if xs == [] then 0.0 else Mean(xs)
  }

  /** The win rate in percent. */
  function WinRate(pnls: seq<real>): (r: real)
    requires pnls != []
    ensures 0.0 <= r <= 100.0
  {
    WinsAndLossesFit(pnls);
    Fraction(|Wins(pnls)| as real, |pnls| as real);
    |Wins(pnls)| as real / |pnls| as real * 100.0
  }

  lemma Fraction(a: real, b: real)
    requires 0.0 <= a <= b && b > 0.0
    ensures 0.0 <= a / b <= 1.0
  {
    assert a / b * b == a;
  }

  lemma Quotient(a: real, b: real)
    requires b > 0.0
    ensures a > 0.0 ==> a / b > 0.0
    ensures a < 0.0 ==> a / b < 0.0
  {
    assert a / b * b == a;
  }

  /** `np.mean(wins) - np.mean(losses)`: the mean loss is negative, so subtracting it adds
      its size, and the figure is never negative. */
  function Expectancy(pnls: seq<real>): (r: real)
    ensures r >= 0.0
  {
    MeanSigns(pnls);
    MeanOrZero(Wins(pnls)) - MeanOrZero(Losses(pnls))
  }

  lemma {:induction false} PositiveSum(xs: seq<real>)
    requires forall i :: 0 <= i < |xs| ==> xs[i] > 0.0
    ensures xs != [] ==> Sum(xs) > 0.0
  {
    if xs != [] {
      PositiveSum(xs[..|xs| - 1]);
    }
  }

  lemma {:induction false} NegativeSum(xs: seq<real>)
    requires forall i :: 0 <= i < |xs| ==> xs[i] < 0.0
    ensures xs != [] ==> Sum(xs) < 0.0
  {
    if xs != [] {
      NegativeSum(xs[..|xs| - 1]);
    }
  }

  /** The mean win is positive and the mean loss negative. */
  lemma MeanSigns(pnls: seq<real>)
    ensures Wins(pnls) != [] ==> Mean(Wins(pnls)) > 0.0
    ensures Losses(pnls) != [] ==> Mean(Losses(pnls)) < 0.0
  {
    var w := Wins(pnls);
    var l := Losses(pnls);
    PositiveSum(w);
    NegativeSum(l);
    if w != [] {
      Quotient(Sum(w), |w| as real);
    }
    if l != [] {
      Quotient(Sum(l), |l| as real);
    }
  }

  /** The analytics loop's equity curve: equity, running peak, and the most negative
      drawdown seen; a zero peak counts as no drawdown. */
  datatype ViewCurve = ViewCurve(equity: real, peak: real, maxDd: real)

  /** The analytics loop's drawdown after a step: the (non-positive) fall below the peak as
      a fraction of it, and 0 for a zero peak. */
  function ViewFall(c: ViewCurve): (dd: real)
    ensures c.peak == 0.0 ==> dd == 0.0
  {
    if c.peak != 0.0 then (c.equity - c.peak) / c.peak else 0.0
  }

  function ViewStep(c: ViewCurve, pnl: real): (r: ViewCurve)
    ensures r.equity == c.equity + pnl
    ensures r.peak >= c.peak && r.peak >= r.equity
    ensures r.peak == (if c.peak >= c.equity + pnl then c.peak else c.equity + pnl)
    ensures r.maxDd <= c.maxDd && r.maxDd <= ViewFall(r)
    ensures r.maxDd == c.maxDd || r.maxDd == ViewFall(r)
    ensures r.peak == 0.0 && c.maxDd <= 0.0 ==> r.maxDd == c.maxDd
  {
    var equity := c.equity + pnl;
    var peak := if c.peak >= equity then c.peak else equity;
    var dd := if peak != 0.0 then (equity - peak) / peak else 0.0;
    ViewCurve(equity, peak, if dd < c.maxDd then dd else c.maxDd)
  }

  function ViewRun(amount: real, pnls: seq<real>): (r: ViewCurve)
    ensures r.peak >= r.equity && r.peak >= amount && r.maxDd <= 0.0
  {
    if pnls == [] then ViewCurve(amount, amount, 0.0)
    else ViewStep(ViewRun(amount, pnls[..|pnls| - 1]), pnls[|pnls| - 1])
  }

  /** The analytics drawdown is at most the drawdown after every prefix of the trades. */
  lemma {:induction false} ViewRunCoversPrefixes(amount: real, pnls: seq<real>, i: nat)
    requires 1 <= i <= |pnls|
    ensures ViewRun(amount, pnls).maxDd <= ViewFall(ViewRun(amount, pnls[..i]))
  {
    var init := pnls[..|pnls| - 1];
    if i == |pnls| {
      assert pnls[..i] == pnls;
    } else {
      assert init[..i] == pnls[..i];
      ViewRunCoversPrefixes(amount, init, i);
    }
  }

  /** The drawdown after the first `i` trades is `v`. */
  predicate ViewFallAt(amount: real, pnls: seq<real>, i: int, v: real) {
    1 <= i <= |pnls| && ViewFall(ViewRun(amount, pnls[..i])) == v
  }

  /** The analytics drawdown is 0 or is reached after some prefix of the trades. */
  lemma {:induction false} ViewRunAttainsMinimum(amount: real, pnls: seq<real>)
    ensures var m := ViewRun(amount, pnls).maxDd; m == 0.0 || exists i :: ViewFallAt(amount, pnls, i, m)
  {
    if pnls != [] {
      var init := pnls[..|pnls| - 1];
      var m := ViewRun(amount, pnls).maxDd;
      assert pnls[..|pnls|] == pnls;
      if m != ViewRun(amount, init).maxDd {
        assert ViewFallAt(amount, pnls, |pnls|, m);
      } else {
        ViewRunAttainsMinimum(amount, init);
        if m != 0.0 {
          var i :| ViewFallAt(amount, init, i, m);
          assert init[..i] == pnls[..i];
          assert ViewFallAt(amount, pnls, i, m);
        }
      }
    }
  }

  /** Wherever the model's drawdown loop does not divide by zero, the analytics loop
      computes the same curve with the drawdown's sign flipped. */
  lemma {:induction false} ViewRunMirrorsModel(amount: real, pnls: seq<real>)
    requires Models.Run(amount, pnls).Some?
    ensures var m := Models.Run(amount, pnls).value;
      var v := ViewRun(amount, pnls);
      v.equity == m.equity && v.peak == m.peak && v.maxDd == -m.maxDd
  {
    if pnls != [] {
      var init := pnls[..|pnls| - 1];
      if Models.Run(amount, init).Some? {
        ViewRunMirrorsModel(amount, init);
        var m := Models.Run(amount, init).value;
        var equity := m.equity + pnls[|pnls| - 1];
        var peak := if m.peak >= equity then m.peak else equity;
        NegatedQuotient(peak - equity, peak);
      }
    }
  }

  lemma NegatedQuotient(x: real, p: real)
    requires p != 0.0
    ensures (-x) / p == -(x / p)
  {
    assert (-x) / p * p == -x;
    assert x / p * p == x;
  }

  /** The analytics loop. */
  method ViewMaxDrawdown(amount: real, pnls: seq<real>) returns (maxDd: real)
    ensures maxDd == ViewRun(amount, pnls).maxDd
  {
    var equity := amount;
    var peak := equity;
    maxDd := 0.0;
    for i := 0 to |pnls|
      invariant ViewRun(amount, pnls[..i]) == ViewCurve(equity, peak, maxDd)
    {
      assert pnls[..i + 1][..i] == pnls[..i];
      equity := equity + pnls[i];
      peak := if peak >= equity then peak else equity;
      var dd := if peak != 0.0 then (equity - peak) / peak else 0.0;
      if dd < maxDd {
        maxDd := dd;
      }
    }
    assert pnls[..|pnls|] == pnls;
  }

  /** One portfolio's starting amount and its trades in date order. */
  datatype PortfolioData = PortfolioData(amount: real, trades: seq<Models.Trade>)

  datatype PortfolioAnalytics = PortfolioAnalytics(
    totalTrades: nat, winRate: real, expectancy: real, netPnl: real, maxDrawdown: real, avgRisk: real)

  const ZeroAnalytics: PortfolioAnalytics := PortfolioAnalytics(0, 0.0, 0.0, 0.0, 0.0, 0.0)

  /** The stop-loss risks of the trades that have one, in order. */
  function Risks(trades: seq<Models.Trade>): (r: seq<real>)
    ensures |r| <= |trades|
    ensures forall x :: x in r <==> exists t :: t in trades && Models.Risk(t) == Some(x)
  {
    if trades == [] then []
    else
      var t := trades[|trades| - 1];
      assert trades == trades[..|trades| - 1] + [t];
      Risks(trades[..|trades| - 1]) + (if Models.Risk(t).Some? then [Models.Risk(t).value] else [])
  }

  /** The risk of each trade, `None` where it has no defined stop-loss risk. */
  function RiskOptions(trades: seq<Models.Trade>): seq<Option<real>> {
    seq(|trades|, i requires 0 <= i < |trades| => Models.Risk(trades[i]))
  }

  /** Every defined risk appears in `Risks` as often as among the trades' risks. */
  lemma {:induction false} RisksCounted(trades: seq<Models.Trade>)
    ensures forall x :: multiset(Risks(trades))[x] == multiset(RiskOptions(trades))[Some(x)]
  {
    if trades != [] {
      var init := trades[..|trades| - 1];
      var t := trades[|trades| - 1];
      RisksCounted(init);
      assert RiskOptions(trades) == RiskOptions(init) + [Models.Risk(t)];
    }
  }

  /** The analytics of one portfolio. */
  function AnalyticsOf(p: PortfolioData): (a: PortfolioAnalytics)
    ensures a.totalTrades == |p.trades|
    ensures p.trades == [] ==> a == ZeroAnalytics
    ensures 0.0 <= a.winRate <= 100.0
    ensures a.maxDrawdown <= 0.0 && a.expectancy >= 0.0
    ensures a.netPnl == Sum(Models.Pnls(p.trades))
    ensures p.trades != [] ==>
      && a.winRate == |Wins(Models.Pnls(p.trades))| as real / |p.trades| as real * 100.0
      && a.expectancy == MeanOrZero(Wins(Models.Pnls(p.trades))) - MeanOrZero(Losses(Models.Pnls(p.trades)))
      && a.avgRisk == MeanOrZero(Risks(p.trades))
      && a.maxDrawdown == ViewRun(p.amount, Models.Pnls(p.trades)).maxDd * 100.0
  {
    if p.trades == [] then ZeroAnalytics
    else
      var pnls := Models.Pnls(p.trades);
      PortfolioAnalytics(|p.trades|, WinRate(pnls), Expectancy(pnls), Sum(pnls),
                         ViewRun(p.amount, pnls).maxDd * 100.0, MeanOrZero(Risks(p.trades)))
  }

  /** The analytics list: a single all-zero entry when there are no portfolios, otherwise
      one entry per portfolio, in order. */
  function AnalyticsList(portfolios: seq<PortfolioData>): (r: seq<PortfolioAnalytics>)
    ensures portfolios == [] ==> r == [ZeroAnalytics]
    ensures portfolios != [] ==> |r| == |portfolios| && forall i :: 0 <= i < |r| ==> r[i] == AnalyticsOf(portfolios[i])
  {
    if portfolios == [] then [ZeroAnalytics]
    else seq(|portfolios|, i requires 0 <= i < |portfolios| => AnalyticsOf(portfolios[i]))
  }

  /** The loop body for one portfolio. */
  method PortfolioAnalyticsOf(p: PortfolioData) returns (a: PortfolioAnalytics)
    ensures a == AnalyticsOf(p)
  {
    if |p.trades| == 0 {
      return ZeroAnalytics;
    }
    var pnls := Models.Pnls(p.trades);
    var maxDd := ViewMaxDrawdown(p.amount, pnls);
    a := PortfolioAnalytics(|p.trades|, WinRate(pnls), Expectancy(pnls), Sum(pnls),
                            maxDd * 100.0, MeanOrZero(Risks(p.trades)));
  }

  /** `compute_portfolio_analytics` */
  method ComputePortfolioAnalytics(portfolios: seq<PortfolioData>) returns (data: seq<PortfolioAnalytics>)
    ensures data == AnalyticsList(portfolios)
  {
    if portfolios == [] {
      return [ZeroAnalytics];
    }
    data := [];
    for i := 0 to |portfolios|
      invariant |data| == i && forall j :: 0 <= j < i ==> data[j] == AnalyticsOf(portfolios[j])
    {
      var analytics := PortfolioAnalyticsOf(portfolios[i]);
      data := data + [analytics];
    }
  }

  /** The details page's metrics for a symbol. */
  datatype Metrics = Metrics(
    symbol: string, totalTrades: nat, winRate: real, totalPnl: real, averagePnl: real,
    winning: nat, losing: nat)

  /** The metrics of `trades`, the trades recorded for `symbol`; the empty symbol is the
      missing one. */
  function MetricsOf(symbol: string, trades: seq<Models.Trade>): (m: Metrics)
    ensures m.winning + m.losing <= m.totalTrades
    ensures 0.0 <= m.winRate <= 100.0
    ensures symbol == "" || trades == [] ==>
      m == Metrics(if symbol == "" then "N/A" else symbol, 0, 0.0, 0.0, 0.0, 0, 0)
    ensures symbol != "" && trades != [] ==>
      && m.symbol == symbol && m.totalTrades == |trades| && m.averagePnl == Mean(Models.Pnls(trades))
      && m.totalPnl == Sum(Models.Pnls(trades))
      && m.winning == |Wins(Models.Pnls(trades))| && m.losing == |Losses(Models.Pnls(trades))|
      && m.winRate == m.winning as real / m.totalTrades as real * 100.0
  {
    if symbol == "" || trades == [] then
      Metrics(if symbol == "" then "N/A" else symbol, 0, 0.0, 0.0, 0.0, 0, 0)
    else
      var pnls := Models.Pnls(trades);
      WinsAndLossesFit(pnls);
      Metrics(symbol, |trades|, WinRate(pnls), Sum(pnls), Mean(pnls), |Wins(pnls)|, |Losses(pnls)|)
  }

  /** The details page's counting loop over the trades' P&Ls. */
  method CountTrades(pnls: seq<real>) returns (totalPnl: real, winning: nat, losing: nat)
    ensures totalPnl == Sum(pnls) && winning == |Wins(pnls)| && losing == |Losses(pnls)|
  {
    winning := 0;
    losing := 0;
    totalPnl := 0.0;
    for i := 0 to |pnls|
      invariant totalPnl == Sum(pnls[..i])
      invariant winning == |Wins(pnls[..i])| && losing == |Losses(pnls[..i])|
    {
      assert pnls[..i + 1][..i] == pnls[..i];
      var pnl := pnls[i];
      totalPnl := totalPnl + pnl;
      if pnl > 0.0 {
        winning := winning + 1;
      } else if pnl < 0.0 {
        losing := losing + 1;
      }
    }
    assert pnls[..|pnls|] == pnls;
  }

  /** The details page's metrics block. */
  method DetailsMetrics(symbol: string, trades: seq<Models.Trade>) returns (m: Metrics)
    ensures m == MetricsOf(symbol, trades)
  {
    if symbol == "" || trades == [] {
      return Metrics(if symbol == "" then "N/A" else symbol, 0, 0.0, 0.0, 0.0, 0, 0);
    }
    var total := |trades|;
    var pnls := Models.Pnls(trades);
    var totalPnl, winning, losing := CountTrades(pnls);
    m := Metrics(symbol, total, winning as real / total as real * 100.0, totalPnl,
                 totalPnl / total as real, winning, losing);
  }
}
