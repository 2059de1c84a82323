/** The threshold rules that turn indicator readings into qualitative labels
    (finance_dashboard/services/analysis_service.py). A reading that pandas reports as
    NaN is `None`. */
module Signals {
  import opened Wrappers

  /** Every label the analysis page shows for an indicator or a macro instrument. */
  datatype Signal = Bullish | Bearish | Neutral | Overbought | Oversold | High | Medium | Low | Rising | Falling

  /** A price compared with a line: a moving average, or the MACD line with its signal line. */
  function CrossSignal(above: Option<real>, below: Option<real>): (s: Signal)
    ensures s == Neutral <==> above.None? || below.None?
    ensures s == Bullish <==> above.Some? && below.Some? && above.value > below.value
    ensures s == Bearish <==> above.Some? && below.Some? && above.value <= below.value
  {
    if above.None? || below.None? then Neutral
    else if above.value > below.value then Bullish
    else Bearish
  }

  /** A reading against an upper and a lower band: the rule shared by RSI, the
      stochastic oscillator and the Bollinger bands. */
  function BandSignal(v: Option<real>, upper: real, lower: real): (s: Signal)
    ensures s == Overbought <==> v.Some? && v.value > upper
    ensures s == Oversold <==> v.Some? && v.value < lower && !(v.value > upper)
    ensures s == Neutral <==> v.None? || (lower <= v.value && !(v.value > upper))
  {
    if v.None? then Neutral
    else if v.value > upper then Overbought
    else if v.value < lower then Oversold
    else Neutral
  }

  /** `_get_ma_signal` */
  function MaSignal(price: Option<real>, ma: Option<real>): (s: Signal)
    ensures s == Neutral <==> price.None? || ma.None?
    ensures s == Bullish <==> price.Some? && ma.Some? && price.value > ma.value
    ensures s == Bearish <==> price.Some? && ma.Some? && price.value <= ma.value
  {
    CrossSignal(price, ma)
  }

  /** `_get_macd_signal` */
  function MacdSignal(macd: Option<real>, signal: Option<real>): (s: Signal)
    ensures s == Neutral <==> macd.None? || signal.None?
    ensures s == Bullish <==> macd.Some? && signal.Some? && macd.value > signal.value
    ensures s == Bearish <==> macd.Some? && signal.Some? && macd.value <= signal.value
  {
    CrossSignal(macd, signal)
  }

  /** `_get_rsi_signal`: overbought above 70, oversold below 30. */
  function RsiSignal(rsi: Option<real>): (s: Signal)
    ensures s == Overbought <==> rsi.Some? && rsi.value > 70.0
    ensures s == Oversold <==> rsi.Some? && rsi.value < 30.0
    ensures s == Neutral <==> rsi.None? || 30.0 <= rsi.value <= 70.0
  {
    BandSignal(rsi, 70.0, 30.0)
  }

  /** `_get_stoch_signal`: overbought above 80, oversold below 20. */
  function StochSignal(stoch: Option<real>): (s: Signal)
    ensures s == Overbought <==> stoch.Some? && stoch.value > 80.0
    ensures s == Oversold <==> stoch.Some? && stoch.value < 20.0
    ensures s == Neutral <==> stoch.None? || 20.0 <= stoch.value <= 80.0
  {
    BandSignal(stoch, 80.0, 20.0)
  }

  /** `_get_bb_signal`: the price against the lower and upper Bollinger bands; any missing
      input gives Neutral. The upper band is tested first. */
  function BbSignal(price: Option<real>, lower: Option<real>, upper: Option<real>): (s: Signal)
    ensures price.None? || lower.None? || upper.None? ==> s == Neutral
    ensures s == Overbought <==> price.Some? && lower.Some? && upper.Some? && price.value > upper.value
    ensures s == Oversold <==> price.Some? && lower.Some? && upper.Some?
                               && price.value < lower.value && !(price.value > upper.value)
    ensures s == Neutral <==> price.None? || lower.None? || upper.None?
                              || (lower.value <= price.value && !(price.value > upper.value))
  {
    if price.None? || lower.None? || upper.None? then Neutral
    else BandSignal(price, upper.value, lower.value)
  }

  /** The ATR label: High only for a defined reading above 0.01. */
  function AtrSignal(atr: Option<real>): (s: Signal)
    ensures s == High <==> atr.Some? && atr.value > 0.01
    ensures s == Low <==> atr.None? || atr.value <= 0.01
  {
    if atr.Some? && atr.value > 0.01 then High else Low
  }

  /** The volatility index label: Low below 20, High above 30, otherwise Medium. */
  function VixSignal(vix: real): (s: Signal)
    ensures s == Low <==> vix < 20.0
    ensures s == High <==> vix > 30.0
    ensures s == Medium <==> 20.0 <= vix <= 30.0
  {
    if vix < 20.0 then Low else if vix > 30.0 then High else Medium
  }

  /** The equity index, ETF and gold label: Bullish only for a strictly positive change. */
  function ChangeSignal(change: real): (s: Signal)
    ensures s == Bullish <==> change > 0.0
    ensures s == Bearish <==> change <= 0.0
  {
    if change > 0.0 then Bullish else Bearish
  }

  /** The ten-year yield label: Rising only for a strictly positive difference. */
  function YieldSignal(change: real): (s: Signal)
    ensures s == Rising <==> change > 0.0
    ensures s == Falling <==> change <= 0.0
  {
    if change > 0.0 then Rising else Falling
  }

  /** `_calculate_volatility`: High above 1.5 %, Medium above 0.8 %, otherwise Low;
      fewer than two prices, or a volatility pandas reports as NaN, gives Low. `pct` is the
      standard deviation of the daily returns in percent. */
  function VolatilitySignal(priceCount: nat, pct: Option<real>): (s: Signal)
    ensures s == High <==> priceCount >= 2 && pct.Some? && pct.value > 1.5
    ensures s == Medium <==> priceCount >= 2 && pct.Some? && 0.8 < pct.value <= 1.5
    ensures s == Low <==> priceCount < 2 || pct.None? || pct.value <= 0.8
  {
    if priceCount < 2 then Low
    else if pct.None? then Low
    else if pct.value > 1.5 then High
    else if pct.value > 0.8 then Medium
    else Low
  }

  /** The gainers table's volume label: the last volume against the mean volume. */
  function VolumeStatus(volume: real, mean: real): (s: Signal)
    ensures s == High <==> volume > mean * 1.2
    ensures s == Medium <==> mean * 0.8 < volume <= mean * 1.2
    ensures s == Low <==> volume <= mean * 0.8 && !(volume > mean * 1.2)
  {
    if volume > mean * 1.2 then High
    else if volume > mean * 0.8 then Medium
    else Low
  }

  /** The risk overlay of the trade signals. */
  datatype Risk = HighRisk | MediumRisk | LowRisk

  /** High Risk above a volatility index of 25, Low Risk below 15, otherwise Medium Risk. */
  function RiskSentiment(vix: real): (r: Risk)
    ensures r == HighRisk <==> vix > 25.0
    ensures r == LowRisk <==> vix < 15.0
    ensures r == MediumRisk <==> 15.0 <= vix <= 25.0
  {
    if vix > 25.0 then HighRisk else if vix < 15.0 then LowRisk else MediumRisk
  }
}
