/** The trade-signal synthesiser (`generate_signals_alerts`): for every available
    technical payload, count the bullish and the bearish evidence, classify the pair, and
    attach the volatility-index risk overlay. */
module Synthesizer {
  import opened Wrappers
  import opened Text
  import Signals
  import Technical
  import Macro

  datatype Action = Buy | Sell | Hold

  datatype Strength = Weak | Medium | Strong

  /** One record of the alert list. */
  datatype TradeSignal = TradeSignal(
    pair: string, action: Action, strength: Strength, details: string, risk: Signals.Risk)

  /** The volatility-index level: the snapshot's VIX value, or 20 when it has none. */
  function VixLevel(macro: Macro.Snapshot): (v: real)
    ensures "VIX" in macro && macro["VIX"].Reading? ==> v == macro["VIX"].value
    ensures !("VIX" in macro && macro["VIX"].Reading?) ==> v == 20.0
  {
    if "VIX" in macro && macro["VIX"].Reading? then macro["VIX"].value else 20.0
  }

  predicate MaBullishTrend(t: Technical.TechPayload) {
    t.sma20.signal == Signals.Bullish && t.sma50.signal == Signals.Bullish
  }

  predicate MaBearishTrend(t: Technical.TechPayload) {
    t.sma20.signal == Signals.Bearish && t.sma50.signal == Signals.Bearish
  }

  /** The bullish evidence labels, in the order they are checked. */
  function BullishEvidence(t: Technical.TechPayload): seq<string> {
    (if t.rsi.signal == Signals.Oversold then ["RSI Oversold"] else [])
    + (if t.macd.signal == Signals.Bullish then ["MACD Bullish"] else [])
    + (if MaBullishTrend(t) then ["MA Bullish Trend"] else [])
  }

  /** The bearish evidence labels, in the order they are checked. */
  function BearishEvidence(t: Technical.TechPayload): seq<string> {
    (if t.rsi.signal == Signals.Overbought then ["RSI Overbought"] else [])
    + (if t.macd.signal == Signals.Bearish then ["MACD Bearish"] else [])
    + (if MaBearishTrend(t) then ["MA Bearish Trend"] else [])
  }

  /** The macro note: the level is written by `showReal`, Python's `str` of a float. */
  function VixNote(vix: real, showReal: real -> string): seq<string> {
    if vix > 25.0 then ["High VIX (" + showReal(vix) + ")"]
    else if vix < 15.0 then ["Low VIX (" + showReal(vix) + ")"]
    else []
  }

  predicate TwoOf(a: bool, b: bool, c: bool) {
    (a && b) || (a && c) || (b && c)
  }

  const NoClearSignals: string := "No clear signals"

  /** The record for one payload. */
  function Alert(t: Technical.TechPayload, vix: real, showReal: real -> string): (r: TradeSignal)
    ensures r.pair == t.pair && r.risk == Signals.RiskSentiment(vix)
    ensures r.action == Buy <==>
      TwoOf(t.rsi.signal == Signals.Oversold, t.macd.signal == Signals.Bullish, MaBullishTrend(t))
    ensures r.action == Sell <==>
      !TwoOf(t.rsi.signal == Signals.Oversold, t.macd.signal == Signals.Bullish, MaBullishTrend(t))
      && TwoOf(t.rsi.signal == Signals.Overbought, t.macd.signal == Signals.Bearish, MaBearishTrend(t))
    ensures r.strength == Strong <==>
      (t.rsi.signal == Signals.Oversold && t.macd.signal == Signals.Bullish && MaBullishTrend(t))
      || (r.action == Sell && t.rsi.signal == Signals.Overbought && t.macd.signal == Signals.Bearish && MaBearishTrend(t))
    ensures r.strength == Weak <==> r.action == Hold
    ensures |BullishEvidence(t)| + |BearishEvidence(t)| <= 3
  {
    var bull := BullishEvidence(t);
    var bear := BearishEvidence(t);
    var details := bull + bear + VixNote(vix, showReal);
    var action := if |bull| >= 2 then Buy else if |bear| >= 2 then Sell else Hold;
    var winner := if action == Buy then |bull| else |bear|;
    var strength := if action == Hold then Weak else if winner >= 3 then Strong else Medium;
    TradeSignal(t.pair, action, strength,
                if details == [] then NoClearSignals else Join(details, " + "),
                Signals.RiskSentiment(vix))
  }

  /** The payloads that are present, in order. */
  function Present(techs: seq<Option<Technical.TechPayload>>): (r: seq<Technical.TechPayload>)
    ensures |r| <= |techs|
    ensures forall t :: t in r <==> Some(t) in techs
  {
    if techs == [] then []
    else
      var init := Present(techs[..|techs| - 1]);
      assert techs == techs[..|techs| - 1] + [techs[|techs| - 1]];
      if techs[|techs| - 1].Some? then init + [techs[|techs| - 1].value] else init
  }

  /** The available payloads of a list are those of its parts, in order. */
  lemma {:induction false} PresentConcat(a: seq<Option<Technical.TechPayload>>, b: seq<Option<Technical.TechPayload>>)
    ensures Present(a + b) == Present(a) + Present(b)
    decreases |b|
  {
    if b == [] {
      assert a + b == a;
    } else {
      var b0 := b[..|b| - 1];
      assert (a + b)[..|a + b| - 1] == a + b0;
      PresentConcat(a, b0);
    }
  }

  /** A present payload gives itself and a missing one gives nothing; with
      `PresentConcat` this fixes `Present` on every list. */
  lemma PresentSingle(t: Technical.TechPayload)
    ensures Present([Some(t)]) == [t]
    ensures Present([None]) == []
  {
    var some: seq<Option<Technical.TechPayload>> := [Some(t)];
    var none: seq<Option<Technical.TechPayload>> := [None];
    assert some[..0] == [] && none[..0] == [];
  }

  /** The alert list: one record per present payload, in order. */
  function Alerts(techs: seq<Option<Technical.TechPayload>>, vix: real, showReal: real -> string): (r: seq<TradeSignal>)
    ensures |r| == |Present(techs)|
    ensures forall k :: 0 <= k < |r| ==> r[k] == Alert(Present(techs)[k], vix, showReal)
  {
    if techs == [] then []
    else
      var init := Alerts(techs[..|techs| - 1], vix, showReal);
      if techs[|techs| - 1].Some? then init + [Alert(techs[|techs| - 1].value, vix, showReal)] else init
  }

  /** The details text says "No clear signals" exactly when no evidence fired and the
      volatility index lies between 15 and 25. */
  lemma NoClearSignalsIff(t: Technical.TechPayload, vix: real, showReal: real -> string)
    ensures Alert(t, vix, showReal).details == NoClearSignals <==>
      BullishEvidence(t) == [] && BearishEvidence(t) == [] && 15.0 <= vix <= 25.0
  {
    var details := BullishEvidence(t) + BearishEvidence(t) + VixNote(vix, showReal);
    if details != [] {
      assert details[0][0] in {'R', 'M', 'H', 'L'} by {
        if BullishEvidence(t) != [] {
          assert details[0] == BullishEvidence(t)[0];
        } else if BearishEvidence(t) != [] {
          assert details[0] == BearishEvidence(t)[0];
        } else {
          assert details[0] == VixNote(vix, showReal)[0];
        }
      }
      assert Join(details, " + ")[0] != NoClearSignals[0];
    }
  }

  /** The bullish half of the loop body: the counter and the labels it appends. */
  method CountBullish(t: Technical.TechPayload) returns (bullish: nat, details: seq<string>)
    ensures details == BullishEvidence(t) && bullish == |details|
  {
    bullish := 0;
    details := [];
    if t.rsi.signal == Signals.Oversold {
      bullish := bullish + 1;
      details := details + ["RSI Oversold"];
    }
    if t.macd.signal == Signals.Bullish {
      bullish := bullish + 1;
      details := details + ["MACD Bullish"];
    }
    if t.sma20.signal == Signals.Bullish && t.sma50.signal == Signals.Bullish {
      bullish := bullish + 1;
      details := details + ["MA Bullish Trend"];
    }
  }

  /** The bearish half of the loop body. */
  method CountBearish(t: Technical.TechPayload) returns (bearish: nat, details: seq<string>)
    ensures details == BearishEvidence(t) && bearish == |details|
  {
    bearish := 0;
    details := [];
    if t.rsi.signal == Signals.Overbought {
      bearish := bearish + 1;
      details := details + ["RSI Overbought"];
    }
    if t.macd.signal == Signals.Bearish {
      bearish := bearish + 1;
      details := details + ["MACD Bearish"];
    }
    if t.sma20.signal == Signals.Bearish && t.sma50.signal == Signals.Bearish {
      bearish := bearish + 1;
      details := details + ["MA Bearish Trend"];
    }
  }

  /** The loop body for one present payload. */
  method PairAlert(t: Technical.TechPayload, vix: real, risk: Signals.Risk, showReal: real -> string)
    returns (s: TradeSignal)
    requires risk == Signals.RiskSentiment(vix)
    ensures s == Alert(t, vix, showReal)
  {
    var strength := Weak;
    var action := Hold;
    var bullish, bull := CountBullish(t);
    var bearish, bear := CountBearish(t);
    var details := bull + bear;
    if bullish >= 2 {
      action := Buy;
      strength := if bullish >= 3 then Strong else Medium;
    } else if bearish >= 2 {
      action := Sell;
      strength := if bearish >= 3 then Strong else Medium;
    }
    if vix > 25.0 {
      details := details + ["High VIX (" + showReal(vix) + ")"];
    } else if vix < 15.0 {
      details := details + ["Low VIX (" + showReal(vix) + ")"];
    }
    assert details == bull + bear + VixNote(vix, showReal);
    s := TradeSignal(t.pair, action, strength,
                     if |details| > 0 then Join(details, " + ") else NoClearSignals, risk);
  }

  /** `generate_signals_alerts` on a snapshot and a list of payloads, `None` for a pair
      whose analysis was unavailable. */
  method GenerateSignalsAlerts(macro: Macro.Snapshot, techs: seq<Option<Technical.TechPayload>>,
                               showReal: real -> string) returns (signals: seq<TradeSignal>)
    ensures signals == Alerts(techs, VixLevel(macro), showReal)
    ensures |signals| == |Present(techs)|
    ensures forall k :: 0 <= k < |signals| ==>
      signals[k].pair == Present(techs)[k].pair && signals[k].risk == Signals.RiskSentiment(VixLevel(macro))
  {
    var vix := if "VIX" in macro && macro["VIX"].Reading? then macro["VIX"].value else 20.0;
    var risk := if vix > 25.0 then Signals.HighRisk else if vix < 15.0 then Signals.LowRisk else Signals.MediumRisk;
    signals := [];
    for i := 0 to |techs|
      invariant signals == Alerts(techs[..i], vix, showReal)
    {
      assert techs[..i + 1][..i] == techs[..i];
      if techs[i].None? {
        continue;
      }
      var s := PairAlert(techs[i].value, vix, risk, showReal);
      signals := signals + [s];
    }
    assert techs[..|techs|] == techs;
  }
}
