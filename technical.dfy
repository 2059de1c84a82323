/** The technical-analysis payload for one currency pair (`get_technical_analysis`):
    the length guard, and the label attached to each indicator's latest reading. The
    indicator values themselves come from the indicator library and are inputs here. */
module Technical {
  import opened Wrappers
  import opened Signals
  import Symbols

  /** Fewer daily bars than this and no analysis is produced. */
  const MinBars: nat := 50

  /** The last row of the indicator frame; a column that is NaN or absent is `None`. */
  datatype LatestRow = LatestRow(
    close: Option<real>,
    sma20: Option<real>, sma50: Option<real>,
    rsi14: Option<real>,
    macd: Option<real>, macdSignal: Option<real>,
    bbUpper: Option<real>, bbLower: Option<real>,
    stochK: Option<real>,
    atr14: Option<real>)

  /** What one request obtained: the provider raised, or it returned `barCount` daily bars,
      after which the indicator library either raised or produced `latest`. */
  datatype TechFetch = FetchRaised | Frame(barCount: nat, indicatorsRaised: bool, latest: LatestRow)

  /** One indicator of the payload: its latest value and its label. */
  datatype Indicator = Indicator(value: Option<real>, signal: Signal)

  /** The technical-analysis payload for a pair, as the synthesiser reads it. */
  datatype TechPayload = TechPayload(
    pair: string, price: Option<real>,
    sma20: Indicator, sma50: Indicator, rsi: Indicator, macd: Indicator,
    bb: Indicator, stoch: Indicator, atr: Indicator)

  /** The analysis for `pair` once the data are in: `None` when the provider raised,
      returned no rows or fewer than 50, or the indicator library raised. */
  function TechnicalAnalysis(pair: string, fetch: TechFetch): (r: Option<TechPayload>)
    ensures r.Some? <==> fetch.Frame? && fetch.barCount >= MinBars && !fetch.indicatorsRaised
    ensures r.Some? ==>
      var row := fetch.latest;
      var t := r.value;
      && t.pair == Symbols.StripSuffix(pair)
      && t.price == row.close
      && t.sma20 == Indicator(row.sma20, MaSignal(row.close, row.sma20))
      && t.sma50 == Indicator(row.sma50, MaSignal(row.close, row.sma50))
      && t.rsi == Indicator(row.rsi14, RsiSignal(row.rsi14))
      && t.macd == Indicator(row.macd, MacdSignal(row.macd, row.macdSignal))
      && t.bb == Indicator(row.bbUpper, BbSignal(row.close, row.bbLower, row.bbUpper))
      && t.stoch == Indicator(row.stochK, StochSignal(row.stochK))
      && t.atr == Indicator(row.atr14, AtrSignal(row.atr14))
  {
    match fetch
    case FetchRaised => None
    case Frame(barCount, indicatorsRaised, row) =>
      if barCount == 0 then None
      else if barCount < MinBars then None
      else if indicatorsRaised then None
      else
        Some(TechPayload(
          Symbols.StripSuffix(pair), row.close,
          Indicator(row.sma20, MaSignal(row.close, row.sma20)),
          Indicator(row.sma50, MaSignal(row.close, row.sma50)),
          Indicator(row.rsi14, RsiSignal(row.rsi14)),
          Indicator(row.macd, MacdSignal(row.macd, row.macdSignal)),
          Indicator(row.bbUpper, BbSignal(row.close, row.bbLower, row.bbUpper)),
          Indicator(row.stochK, StochSignal(row.stochK)),
          Indicator(row.atr14, AtrSignal(row.atr14))))
  }
}
