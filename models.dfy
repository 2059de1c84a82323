/** The record-level arithmetic and helpers of the database models
    (finance_dashboard/models.py): trade P&L and risk, the portfolio's maximum
    drawdown, the pair display name, and the insight attachment helpers. Decimal values
    are `real`; the rounding to two places is not modelled. */
module Models {
  import opened Wrappers
  import opened Text

  /** A trade; `side` is the stored text, of which only "BUY" is long. */
  datatype Trade = Trade(side: string, entry: real, exit: real, stoploss: Option<real>, qty: int)

  /** +1 for a long trade, -1 for anything else. */
  function Direction(side: string): (d: real)
    ensures d == 1.0 <==> side == "BUY"
    ensures d == 1.0 || d == -1.0
  {
    if side == "BUY" then 1.0 else -1.0
  }

  /** `Trade.pnl` */
  function Pnl(t: Trade): (r: real)
    ensures t.side == "BUY" ==> r == (t.exit - t.entry) * t.qty as real
    ensures t.side != "BUY" ==> r == (t.entry - t.exit) * t.qty as real
  {
    Direction(t.side) * (t.exit - t.entry) * t.qty as real
  }

  /** Turning a long trade into a short one, or back, negates its P&L. */
  lemma SwapSideNegatesPnl(t: Trade, other: string)
    requires (t.side == "BUY") != (other == "BUY")
    ensures Pnl(t.(side := other)) == -Pnl(t)
  {
  }

  /** `Trade.risk`: no figure when the stop-loss is missing or zero; otherwise the signed
      amount lost if the stop-loss is hit. */
  function Risk(t: Trade): (r: Option<real>)
    ensures r.None? <==> t.stoploss.None? || t.stoploss.value == 0.0
    ensures r.Some? ==> r.value == Pnl(t.(exit := t.stoploss.value))
  {
    if t.stoploss.None? || t.stoploss.value == 0.0 then None
    else Some(Direction(t.side) * (t.stoploss.value - t.entry) * t.qty as real)
  }

  /** The equity curve after some trades: current equity, its running peak, and the
      largest drawdown seen, as a fraction of the peak. */
  datatype Curve = Curve(equity: real, peak: real, maxDd: real)

  /** The fall of equity below its peak, as a fraction of the peak. */
  function Fall(c: Curve): real
    requires c.peak != 0.0
  {
    (c.peak - c.equity) / c.peak
  }

  /** One iteration of the drawdown loop; `None` is the decimal division by a zero peak. */
  function Step(c: Curve, pnl: real): (r: Option<Curve>)
    ensures r.None? <==> (if c.peak >= c.equity + pnl then c.peak else c.equity + pnl) == 0.0
    ensures r.Some? ==> r.value.equity == c.equity + pnl
    ensures r.Some? ==> r.value.peak >= c.peak && r.value.peak >= r.value.equity
    ensures r.Some? ==> r.value.peak == (if c.peak >= c.equity + pnl then c.peak else c.equity + pnl)
    ensures r.Some? ==> r.value.maxDd >= c.maxDd && r.value.maxDd >= Fall(r.value)
    ensures r.Some? ==> r.value.maxDd == c.maxDd || r.value.maxDd == Fall(r.value)
  {
    var equity := c.equity + pnl;
    var peak := if c.peak >= equity then c.peak else equity;
    if peak == 0.0 then None
    else
      var dd := (peak - equity) / peak;
      Some(Curve(equity, peak, if c.maxDd >= dd then c.maxDd else dd))
  }

  /** The curve after the trades' P&Ls, starting from `amount`. */
  function Run(amount: real, pnls: seq<real>): (r: Option<Curve>)
    ensures r.Some? ==> r.value.peak >= r.value.equity && r.value.peak >= amount && r.value.maxDd >= 0.0
    ensures r.Some? && pnls != [] ==> r.value.peak != 0.0
  {
    if pnls == [] then Some(Curve(amount, amount, 0.0))
    else
      var before := Run(amount, pnls[..|pnls| - 1]);
      if before.None? then None else Step(before.value, pnls[|pnls| - 1])
  }

  function Pnls(trades: seq<Trade>): (r: seq<real>)
    ensures |r| == |trades| && forall i :: 0 <= i < |trades| ==> r[i] == Pnl(trades[i])
  {
    seq(|trades|, i requires 0 <= i < |trades| => Pnl(trades[i]))
  }

  /** `Portfolio.max_drawdown` in percent, for trades already in date order; `None` when
      the loop divides by a zero peak. */
  function Drawdown(amount: real, trades: seq<Trade>): (r: Option<real>)
    ensures trades == [] ==> r == Some(0.0)
    ensures r.Some? ==> r.value >= 0.0
  {
    if trades == [] then Some(0.0)
    else
      var c := Run(amount, Pnls(trades));
      if c.None? then None else Some(c.value.maxDd * 100.0)
  }

  /** The drawdown loop itself. */
  method MaxDrawdown(amount: real, trades: seq<Trade>) returns (r: Option<real>)
    ensures r == Drawdown(amount, trades)
  {
    if trades == [] {
      return Some(0.0);
    }
    var equity := amount;
    var peak := equity;
    var maxDd := 0.0;
    ghost var pnls := Pnls(trades);
    for i := 0 to |trades|
      invariant Run(amount, pnls[..i]) == Some(Curve(equity, peak, maxDd))
    {
      ghost var before := Curve(equity, peak, maxDd);
      assert pnls[..i + 1][..i] == pnls[..i];
      assert Run(amount, pnls[..i + 1]) == Step(before, pnls[i]);
      equity := equity + Pnl(trades[i]);
      peak := if peak >= equity then peak else equity;
      if peak == 0.0 {
        RunStopsAtError(amount, pnls, i + 1);
        assert pnls[..|pnls|] == pnls;
        return None;
      }
      var dd := (peak - equity) / peak;
      maxDd := if maxDd >= dd then maxDd else dd;
    }
    assert pnls[..|trades|] == pnls;
    r := Some(maxDd * 100.0);
  }

  /** Once the loop has divided by a zero peak, no later trade matters. */
  lemma {:induction false} RunStopsAtError(amount: real, pnls: seq<real>, i: nat)
    requires i <= |pnls| && Run(amount, pnls[..i]).None?
    ensures Run(amount, pnls).None?
    decreases |pnls| - i
  {
    if i < |pnls| {
      assert pnls[..i + 1][..i] == pnls[..i];
      RunStopsAtError(amount, pnls, i + 1);
    } else {
      assert pnls[..i] == pnls;
    }
  }

  /** The largest drawdown is at least the fall after every prefix of the trades. */
  lemma {:induction false} RunCoversPrefixes(amount: real, pnls: seq<real>, i: nat)
    requires 1 <= i <= |pnls| && Run(amount, pnls).Some?
    ensures Run(amount, pnls[..i]).Some?
    ensures Run(amount, pnls).value.maxDd >= Fall(Run(amount, pnls[..i]).value)
  {
    var init := pnls[..|pnls| - 1];
    if i == |pnls| {
      assert pnls[..i] == pnls;
    } else {
      assert init[..i] == pnls[..i];
      RunCoversPrefixes(amount, init, i);
    }
  }

  /** The fall after the first `i` trades is `v`. */
  predicate FallAt(amount: real, pnls: seq<real>, i: int, v: real) {
    1 <= i <= |pnls| && Run(amount, pnls[..i]).Some? && Run(amount, pnls[..i]).value.peak != 0.0
    && Fall(Run(amount, pnls[..i]).value) == v
  }

  /** The largest drawdown is 0 or is reached after some prefix of the trades. */
  lemma {:induction false} RunAttainsMaximum(amount: real, pnls: seq<real>)
    requires Run(amount, pnls).Some?
    ensures var m := Run(amount, pnls).value.maxDd; m == 0.0 || exists i :: FallAt(amount, pnls, i, m)
  {
    if pnls != [] {
      var init := pnls[..|pnls| - 1];
      var m := Run(amount, pnls).value.maxDd;
      assert pnls[..|pnls|] == pnls;
      if m != Run(amount, init).value.maxDd {
        assert FallAt(amount, pnls, |pnls|, m);
      } else {
        RunAttainsMaximum(amount, init);
        if m != 0.0 {
          var i :| FallAt(amount, init, i, m);
          assert init[..i] == pnls[..i];
          assert FallAt(amount, pnls, i, m);
        }
      }
    }
  }

  /** `max_drawdown` is, in percent, at least the fall after every prefix of the trades. */
  lemma DrawdownCoversPrefixes(amount: real, trades: seq<Trade>, i: nat)
    requires 1 <= i <= |trades| && Drawdown(amount, trades).Some?
    ensures Run(amount, Pnls(trades)[..i]).Some?
    ensures Drawdown(amount, trades).value >= Fall(Run(amount, Pnls(trades)[..i]).value) * 100.0
  {
    RunCoversPrefixes(amount, Pnls(trades), i);
  }

  /** With positive capital the peak never reaches zero, so the loop never divides by
      zero. */
  lemma {:induction false} PositiveCapitalRuns(amount: real, pnls: seq<real>)
    requires amount > 0.0
    ensures Run(amount, pnls).Some?
  {
    if pnls != [] {
      PositiveCapitalRuns(amount, pnls[..|pnls| - 1]);
    }
  }

  /** With positive capital and no losing trade, equity is always at its peak and the
      maximum drawdown is zero. */
  lemma {:induction false} GainsOnlyNoDrawdown(amount: real, pnls: seq<real>)
    requires amount > 0.0
    requires forall i :: 0 <= i < |pnls| ==> pnls[i] >= 0.0
    ensures Run(amount, pnls).Some?
    ensures Run(amount, pnls).value.peak == Run(amount, pnls).value.equity
    ensures Run(amount, pnls).value.maxDd == 0.0
  {
    if pnls != [] {
      GainsOnlyNoDrawdown(amount, pnls[..|pnls| - 1]);
    }
  }

  /** The portfolio-level form of the previous lemma. */
  lemma NoLosingTradeNoDrawdown(amount: real, trades: seq<Trade>)
    requires amount > 0.0
    requires forall i :: 0 <= i < |trades| ==> Pnl(trades[i]) >= 0.0
    ensures Drawdown(amount, trades) == Some(0.0)
  {
    GainsOnlyNoDrawdown(amount, Pnls(trades));
  }

  /** `ForexPair.display_name`: a six-letter pair gets a slash after its base currency. */
  function DisplayName(pair: string): (r: string)
    ensures |pair| == 6 ==> |r| == 7 && r[3] == '/' && r[..3] + r[4..] == pair
    ensures |pair| != 6 ==> r == pair
  {
    if |pair| == 6 then pair[..3] + "/" + pair[3..] else pair
  }

  /** An insight's two optional attachments, by stored name; the empty name is an absent
      file, which is how Django's file fields test false. */
  datatype Attachments = Attachments(file: string, image: string)

  /** An insight with neither a file nor an image. */
  const NoAttachments: Attachments := Attachments("", "")

  /** `Insight.has_attachment`: false exactly for an insight with nothing attached. */
  predicate HasAttachment(a: Attachments): (b: bool)
    ensures !b <==> a == NoAttachments
  {
    a.file != "" || a.image != ""
  }

  const ImageExtensions: seq<string> := [".png", ".jpg", ".jpeg", ".gif", ".bmp"]

  /** `name.lower().endswith(('.png', '.jpg', '.jpeg', '.gif', '.bmp'))` */
  predicate HasImageExtension(name: string) {
    exists e :: e in ImageExtensions && EndsWith(Lower(name), e)
  }

  /** The extension test ignores case: a name and its upper-case form agree. */
  lemma ExtensionIgnoresCase(name: string)
    ensures HasImageExtension(Upper(name)) == HasImageExtension(name)
  {
    assert Lower(Upper(name)) == Lower(name);
  }

  /** `Insight.is_image`: an attached image, or a file whose name has an image extension. */
  function IsImage(a: Attachments): (r: bool)
    ensures r ==> HasAttachment(a)
    ensures a.image != "" ==> r
    ensures a.image == "" ==> (r <==> a.file != "" && HasImageExtension(a.file))
  {
    if a.image != "" then true
    else if a.file != "" then HasImageExtension(a.file)
    else false
  }

  /** `Insight.file_name`: the last path segment of the file, else of the image. */
  function FileName(a: Attachments): (r: Option<string>)
    ensures r.None? <==> !HasAttachment(a)
    ensures r.Some? ==> forall i :: 0 <= i < |r.value| ==> r.value[i] != '/'
    ensures r.Some? ==> EndsWith(if a.file != "" then a.file else a.image, r.value)
    ensures r.Some? ==>
      var n := if a.file != "" then a.file else a.image;
      |r.value| == |n| || n[|n| - |r.value| - 1] == '/'
  {
    if a.file != "" then Some(LastSegment(a.file))
    else if a.image != "" then Some(LastSegment(a.image))
    else None
  }
}
