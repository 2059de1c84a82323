/** The macro snapshot (`get_macro_data`): one reading per instrument, fetched in a fixed
    order inside one `try`, followed by the positioning summary, which is always added. */
module Macro {
  import opened Wrappers
  import opened Signals
  import opened Quotes

  /** What the provider returned for one instrument: it raised, or it returned these closes
      (none at all is the empty frame). */
  datatype History = Raised | Closes(closes: seq<real>)

  /** The provider's answers for every instrument the snapshot asks about. */
  datatype MacroInputs = MacroInputs(
    vix: History, sp500: History, spy: History, gold: History, tlt: History,
    fred: History, tnx: History)

  /** One snapshot entry. A `change` of `None` stands for the non-finite value numpy
      produces when the previous close is zero. */
  datatype MacroEntry =
    | Reading(value: real, change: Option<real>, signal: Signal, history: seq<real>)
    | Positioning(netPositions: string, longPositions: int, shortPositions: int,
                  signal: Signal, interpretation: string)

  type Snapshot = map<string, MacroEntry>

  /** `get_cot_summary`: fixed figures. */
  const Cot: MacroEntry :=
    Positioning("Bearish USD", 45000, 60000, Bearish, "Large speculators are net short USD")

  /** The outcome of one instrument's block: nothing to add, an entry, or an exception that
      ends the enclosing `try`. */
  datatype Read = Skip | Got(entry: MacroEntry) | Fail

  const HistoryLength: nat := 30

  /** The percentage move from `prev` to `cur`, or `None` when `prev` is zero. */
  function PercentMove(prev: real, cur: real): (r: Option<real>)
    ensures r.Some? <==> prev != 0.0
    ensures r.Some? ==> r.value * prev == (cur - prev) * 100.0
  {
    if prev != 0.0 then Some((cur - prev) / prev * 100.0) else None
  }

  /** The index, ETF and gold label: Bullish iff the percentage move is positive; with a
      zero previous close the move is plus or minus infinity, or NaN, so the sign of `cur`
      decides. A negative previous close flips the comparison. */
  function MoveSignal(prev: real, cur: real): (s: Signal)
    ensures prev > 0.0 ==> (s == Bullish <==> cur > prev)
    ensures prev < 0.0 ==> (s == Bullish <==> cur < prev)
    ensures prev == 0.0 ==> (s == Bullish <==> cur > 0.0)
    ensures s == Bullish || s == Bearish
  {
    var move := PercentMove(prev, cur);
    if move.Some? then
      var m := move.value;
      assert m * prev == (cur - prev) * 100.0;
      ChangeSignal(m)
    else if cur > 0.0 then Bullish
    else Bearish
  }

  /** One of the five instrument blocks read from the daily closes. `isVix` selects
      the volatility-index label. Fewer than two closes makes `iloc[-2]` raise. */
  function InstrumentRead(h: History, isVix: bool): (r: Read)
    ensures r.Skip? <==> h == Closes([])
    ensures r.Fail? <==> h.Raised? || |h.closes| == 1
    ensures r.Got? ==>
      var c := h.closes;
      var prev := c[|c| - 2];
      var cur := c[|c| - 1];
      && |c| >= 2
      && r.entry.Reading?
      && r.entry.value == cur
      && r.entry.change == PercentMove(prev, cur)
      && r.entry.signal == (if isVix then VixSignal(cur) else MoveSignal(prev, cur))
      && r.entry.history == Tail(c, HistoryLength)
  {
    match h
    case Raised => Fail
    case Closes(c) =>
      if c == [] then Skip
      else if |c| < 2 then Fail
      else
        var prev := c[|c| - 2];
        var cur := c[|c| - 1];
        Got(Reading(cur, PercentMove(prev, cur),
                    if isVix then VixSignal(cur) else MoveSignal(prev, cur),
                    Tail(c, HistoryLength)))
  }

  /** The fallback ten-year yield block: an absolute change of the last two closes. */
  function TnxRead(tnx: History): (r: Read)
    ensures r.Skip? <==> tnx == Closes([])
    ensures r.Fail? <==> tnx.Raised? || |tnx.closes| == 1
    ensures r.Got? ==>
      var c := tnx.closes;
      && |c| >= 2
      && r.entry == Reading(c[|c| - 1], Some(c[|c| - 1] - c[|c| - 2]),
                            YieldSignal(c[|c| - 1] - c[|c| - 2]), Tail(c, HistoryLength))
  {
    match tnx
    case Raised => Fail
    case Closes(c) =>
      if c == [] then Skip
      else if |c| < 2 then Fail
      else
        var change := c[|c| - 1] - c[|c| - 2];
        Got(Reading(c[|c| - 1], Some(change), YieldSignal(change), Tail(c, HistoryLength)))
  }

  /** The ten-year yield block: the FRED series when it can be fetched, where a single
      observation counts as its own previous value; otherwise the fallback. */
  function YieldRead(fred: History, tnx: History): (r: Read)
    ensures fred.Raised? ==> r == TnxRead(tnx)
    ensures fred.Closes? ==> (r.Skip? <==> fred.closes == [])
    ensures fred.Closes? ==> !r.Fail?
    ensures r.Got? ==>
      r.entry.Reading? && r.entry.change.Some? && r.entry.signal == YieldSignal(r.entry.change.value)
    ensures fred.Closes? && |fred.closes| == 1 ==>
      var v := fred.closes;
      r == Got(Reading(v[0], Some(0.0), YieldSignal(0.0), v))
    ensures fred.Closes? && |fred.closes| >= 2 ==>
      var v := fred.closes;
      var change := v[|v| - 1] - v[|v| - 2];
      r == Got(Reading(v[|v| - 1], Some(change), YieldSignal(change), Tail(v, HistoryLength)))
  {
    match fred
    case Raised => TnxRead(tnx)
    case Closes(v) =>
      if v == [] then Skip
      else
        var cur := v[|v| - 1];
        var prev := if |v| > 1 then v[|v| - 2] else cur;
        Got(Reading(cur, Some(cur - prev), YieldSignal(cur - prev), Tail(v, HistoryLength)))
  }

  /** The instrument blocks in the order the snapshot runs them, with their keys. */
  function Blocks(inp: MacroInputs): (r: seq<(string, Read)>)
    ensures |r| == 6
  {
    [("VIX", InstrumentRead(inp.vix, true)),
     ("SP500", InstrumentRead(inp.sp500, false)),
     ("SPY", InstrumentRead(inp.spy, false)),
     ("Gold", InstrumentRead(inp.gold, false)),
     ("TLT", InstrumentRead(inp.tlt, false)),
     ("US10Y", YieldRead(inp.fred, inp.tnx))]
  }

  /** Running the blocks in order on `snap`: an entry is added for each `Got`, and the
      first `Fail` ends the run. */
  function Assemble(snap: Snapshot, blocks: seq<(string, Read)>): (m: Snapshot)
    ensures snap.Keys <= m.Keys
    decreases |blocks|
  {
    if blocks == [] then snap
    else
      match blocks[0].1
      case Fail => snap
      case Skip => Assemble(snap, blocks[1..])
      case Got(e) => Assemble(snap[blocks[0].0 := e], blocks[1..])
  }

  /** The snapshot the getter computes on a cache miss. */
  function MacroData(inp: MacroInputs): (m: Snapshot)
    ensures "COT" in m && m["COT"] == Cot
    ensures m.Keys <= {"VIX", "SP500", "SPY", "Gold", "TLT", "US10Y", "COT"}
  {
    var blocks := Blocks(inp);
    KeysWithin(map[], blocks, {"VIX", "SP500", "SPY", "Gold", "TLT", "US10Y"});
    Assemble(map[], blocks)["COT" := Cot]
  }

  /** The run adds no key that its blocks do not name. */
  lemma {:induction false} KeysWithin(snap: Snapshot, blocks: seq<(string, Read)>, names: set<string>)
    requires forall j :: 0 <= j < |blocks| ==> blocks[j].0 in names
    ensures Assemble(snap, blocks).Keys <= snap.Keys + names
    decreases |blocks|
  {
    if blocks != [] {
      match blocks[0].1
      case Fail =>
      case Skip => KeysWithin(snap, blocks[1..], names);
      case Got(e) => KeysWithin(snap[blocks[0].0 := e], blocks[1..], names);
    }
  }

  /** A key that the snapshot lacks and no block names stays absent. */
  lemma {:induction false} AbsentKey(snap: Snapshot, blocks: seq<(string, Read)>, k: string)
    requires k !in snap
    requires forall j :: 0 <= j < |blocks| ==> blocks[j].0 != k
    ensures k !in Assemble(snap, blocks)
    decreases |blocks|
  {
    if blocks != [] {
      match blocks[0].1
      case Fail =>
      case Skip => AbsentKey(snap, blocks[1..], k);
      case Got(e) => AbsentKey(snap[blocks[0].0 := e], blocks[1..], k);
    }
  }

  /** An exception in a block discards every block after it. */
  lemma {:induction false} FailureEndsRun(snap: Snapshot, blocks: seq<(string, Read)>, i: nat)
    requires i < |blocks| && blocks[i].1.Fail?
    ensures Assemble(snap, blocks) == Assemble(snap, blocks[..i])
    decreases i
  {
    if i > 0 {
      assert blocks[1..][..i - 1] == blocks[..i][1..];
      match blocks[0].1
      case Fail =>
      case Skip => FailureEndsRun(snap, blocks[1..], i - 1);
      case Got(e) => FailureEndsRun(snap[blocks[0].0 := e], blocks[1..], i - 1);
    }
  }

  /** With distinct keys, a key of the run is present exactly when its block produced an
      entry and no earlier block raised, and then it holds that entry. */
  lemma {:induction false} AssembleEntry(snap: Snapshot, blocks: seq<(string, Read)>, i: nat)
    requires i < |blocks|
    requires forall j, l :: 0 <= j < l < |blocks| ==> blocks[j].0 != blocks[l].0
    requires blocks[i].0 !in snap
    ensures var m := Assemble(snap, blocks);
      blocks[i].0 in m <==> blocks[i].1.Got? && forall j :: 0 <= j < i ==> !blocks[j].1.Fail?
    ensures blocks[i].0 in Assemble(snap, blocks) ==> Assemble(snap, blocks)[blocks[i].0] == blocks[i].1.entry
    decreases i
  {
    var k := blocks[i].0;
    if i == 0 {
      match blocks[0].1
      case Fail =>
      case Skip =>
        AbsentKey(snap, blocks[1..], k);
      case Got(e) =>
        KeptEntry(snap[k := e], blocks[1..], k);
    } else {
      var rest := blocks[1..];
      assert forall j :: 0 < j < i ==> blocks[j] == rest[j - 1];
      match blocks[0].1
      case Fail =>
      case Skip =>
        AssembleEntry(snap, rest, i - 1);
      case Got(e) =>
        AssembleEntry(snap[blocks[0].0 := e], rest, i - 1);
    }
  }

  /** An entry that no later block names is kept by the run. */
  lemma {:induction false} KeptEntry(snap: Snapshot, blocks: seq<(string, Read)>, k: string)
    requires k in snap
    requires forall j :: 0 <= j < |blocks| ==> blocks[j].0 != k
    ensures k in Assemble(snap, blocks) && Assemble(snap, blocks)[k] == snap[k]
    decreases |blocks|
  {
    if blocks != [] {
      match blocks[0].1
      case Fail =>
      case Skip => KeptEntry(snap, blocks[1..], k);
      case Got(e) => KeptEntry(snap[blocks[0].0 := e], blocks[1..], k);
    }
  }

  /** The snapshot holds an instrument's entry exactly when its block produced one and no
      earlier block raised: a failure in one instrument drops that instrument and every
      later one, not only its own key. */
  lemma SnapshotEntry(inp: MacroInputs, i: nat)
    requires i < 6
    ensures var b := Blocks(inp);
      b[i].0 in MacroData(inp) <==> b[i].1.Got? && forall j :: 0 <= j < i ==> !b[j].1.Fail?
    ensures var b := Blocks(inp);
      b[i].0 in MacroData(inp) ==> MacroData(inp)[b[i].0] == b[i].1.entry
  {
    var b := Blocks(inp);
    AssembleEntry(map[], b, i);
  }

  /** When the first instrument raises, the snapshot is the positioning summary alone. */
  lemma FirstFailureLeavesCot(inp: MacroInputs)
    requires InstrumentRead(inp.vix, true).Fail?
    ensures MacroData(inp) == map["COT" := Cot]
  {
    FailureEndsRun(map[], Blocks(inp), 0);
  }
}
