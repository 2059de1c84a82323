/** The form rules (finance_dashboard/forms.py): the insight attachment checks, the
    trade-insight link check, and the symbol choices offered for each category. */
module Forms {
  import opened Wrappers
  import Models
  import Symbols

  /** An uploaded file: its name and its size in bytes. Django's upload objects test
      false when their name is empty. */
  datatype Upload = Upload(name: string, size: nat)

  predicate Attached(u: Option<Upload>) {
    u.Some? && u.value.name != ""
  }

  /** The cleaned insight form: its text fields and the two optional uploads. */
  datatype InsightData = InsightData(fields: map<string, string>, file: Option<Upload>, image: Option<Upload>)

  datatype InsightError = BothAttached | FileTooLarge | ImageTooLarge

  /** 5 MiB */
  const MaxUploadSize: nat := 5 * 1024 * 1024

  /** `InsightForm.clean`: the checks run in order and the first that fails is reported. */
  function CleanInsight(d: InsightData): (r: Result<InsightData, InsightError>)
    ensures r == Err(BothAttached) <==> Attached(d.file) && Attached(d.image)
    ensures r == Err(FileTooLarge) <==>
      !Attached(d.image) && Attached(d.file) && d.file.value.size > MaxUploadSize
    ensures r == Err(ImageTooLarge) <==>
      !Attached(d.file) && Attached(d.image) && d.image.value.size > MaxUploadSize
    ensures r.Ok? <==>
      && !(Attached(d.file) && Attached(d.image))
      && (Attached(d.file) ==> d.file.value.size <= MaxUploadSize)
      && (Attached(d.image) ==> d.image.value.size <= MaxUploadSize)
    ensures r.Ok? ==> r.value == d
  {
    if Attached(d.file) && Attached(d.image) then Err(BothAttached)
    else if Attached(d.file) && d.file.value.size > MaxUploadSize then Err(FileTooLarge)
    else if Attached(d.image) && d.image.value.size > MaxUploadSize then Err(ImageTooLarge)
    else Ok(d)
  }

  /** The size limit is inclusive: a single upload of exactly 5 MiB is accepted, one byte
      more is not. */
  lemma LimitIsInclusive(fields: map<string, string>, name: string)
    requires name != ""
    ensures CleanInsight(InsightData(fields, Some(Upload(name, MaxUploadSize)), None)).Ok?
    ensures CleanInsight(InsightData(fields, None, Some(Upload(name, MaxUploadSize)))).Ok?
    ensures CleanInsight(InsightData(fields, Some(Upload(name, MaxUploadSize + 1)), None)) == Err(FileTooLarge)
    ensures CleanInsight(InsightData(fields, None, Some(Upload(name, MaxUploadSize + 1)))) == Err(ImageTooLarge)
  {
  }

  /** The cleaned trade-insight form: the chosen existing insight, if any, and the title
      typed for a new one. */
  datatype TradeInsightData = TradeInsightData(insight: Option<nat>, newTitle: string)

  /** `TradeInsightForm.clean`: either an existing insight or a new title is needed. */
  function CleanTradeInsight(d: TradeInsightData): (r: Option<TradeInsightData>)
    ensures r.None? <==> d.insight.None? && d.newTitle == ""
    ensures r.Some? ==> r.value == d
  {
    if d.insight.None? && d.newTitle == "" then None else Some(d)
  }

  /** A choice: the stored value and the label shown. */
  type Choice = (string, string)

  const CurrencyFallback: seq<Choice> := [
    ("EURUSD", "EUR/USD"), ("GBPUSD", "GBP/USD"), ("USDJPY", "USD/JPY"), ("AUDUSD", "AUD/USD"),
    ("USDCAD", "USD/CAD"), ("USDCHF", "USD/CHF"), ("NZDUSD", "NZD/USD")]

  const StockChoices: seq<Choice> := [
    ("AAPL", "Apple Inc."), ("GOOGL", "Alphabet Inc."), ("MSFT", "Microsoft Corp."),
    ("TSLA", "Tesla Inc."), ("AMZN", "Amazon.com Inc."), ("NVDA", "NVIDIA Corp."),
    ("META", "Meta Platforms Inc.")]

  const OtherChoices: seq<Choice> := [
    ("BTCUSD", "Bitcoin/USD"), ("ETHUSD", "Ethereum/USD"), ("GOLD", "Gold"), ("SILVER", "Silver")]

  /** `TradeForm.get_symbol_choices`; `dbPairs` are the stored forex pairs, ordered by name. */
  function SymbolChoices(category: string, dbPairs: seq<string>): (r: seq<Choice>)
    ensures r != []
    ensures category == "currency" && dbPairs != [] ==>
      |r| == |dbPairs| && forall i :: 0 <= i < |r| ==> r[i] == (dbPairs[i], dbPairs[i])
    ensures category == "currency" && dbPairs == [] ==> r == CurrencyFallback
    ensures category == "stock" ==> r == StockChoices
    ensures category != "currency" && category != "stock" ==> r == OtherChoices
  {
    if category == "currency" then
      if dbPairs != [] then seq(|dbPairs|, i requires 0 <= i < |dbPairs| => (dbPairs[i], dbPairs[i]))
      else CurrencyFallback
    else if category == "stock" then StockChoices
    else OtherChoices
  }

  /** Every fallback currency label is the pair's display name. */
  lemma {:induction false} FallbackLabelsAreDisplayNames(i: nat)
    requires i < |CurrencyFallback|
    ensures CurrencyFallback[i].1 == Models.DisplayName(CurrencyFallback[i].0)
  {
    var c := CurrencyFallback[i];
    assert |c.0| == 6;
    assert c.1 == c.0[..3] + "/" + c.0[3..];
  }

  /** The fallback currencies are the forex symbols the search offers, though not in the
      same order, and the stock choices are the searchable stocks in order. */
  lemma ChoicesMatchSearch()
    ensures forall i :: 0 <= i < |CurrencyFallback| ==> CurrencyFallback[i].0 in Symbols.ForexSymbols
    ensures forall s :: s in Symbols.ForexSymbols ==> exists i :: 0 <= i < |CurrencyFallback| && CurrencyFallback[i].0 == s
    ensures |StockChoices| == |Symbols.StockSymbols|
    ensures forall i :: 0 <= i < |StockChoices| ==> StockChoices[i].0 == Symbols.StockSymbols[i]
  {
    assert CurrencyFallback[0].0 == Symbols.ForexSymbols[0];
    assert CurrencyFallback[1].0 == Symbols.ForexSymbols[1];
    assert CurrencyFallback[2].0 == Symbols.ForexSymbols[2];
    assert CurrencyFallback[3].0 == Symbols.ForexSymbols[4];
    assert CurrencyFallback[4].0 == Symbols.ForexSymbols[5];
    assert CurrencyFallback[5].0 == Symbols.ForexSymbols[3];
    assert CurrencyFallback[6].0 == Symbols.ForexSymbols[6];
  }
}
