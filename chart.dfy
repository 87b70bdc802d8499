/**
 * The chart store (`chartStore.ts`): the symbol on display, its selected
 * timeframe and the timeframes it offers. Each operation maps a state to a
 * new state.
 */
module Chart {
  import opened Wrappers

  datatype ChartState = ChartState(selectedSymbol: Option<string>, selectedTimeframe: Option<string>,
                                   availableTimeframes: seq<string>)

  /** The store's initial value: nothing selected, nothing offered. */
  const Initial: ChartState := ChartState(None, None, [])

  /** `timeframes[0] || null`: the first timeframe, unless there is none or it is the empty text. */
  function FirstTimeframe(timeframes: seq<string>): (r: Option<string>)
    ensures r.Some? <==> timeframes != [] && timeframes[0] != ""
    ensures r.Some? ==> r.value == timeframes[0]
  {
    if timeframes != [] && timeframes[0] != "" then Some(timeframes[0]) else None
  }

  /** `setSymbol`: every field is replaced. */
  function SetSymbol(st: ChartState, symbol: string, timeframes: seq<string>): (r: ChartState)
    ensures r.selectedSymbol == Some(symbol) && r.availableTimeframes == timeframes
    ensures r.selectedTimeframe == FirstTimeframe(timeframes)
  {
    st.(selectedSymbol := Some(symbol), availableTimeframes := timeframes, selectedTimeframe := FirstTimeframe(timeframes))
  }

  /** `setTimeframe`: only the selection changes, and it is not checked against the offered list. */
  function SetTimeframe(st: ChartState, timeframe: string): (r: ChartState)
    ensures r.selectedTimeframe == Some(timeframe)
    ensures r.selectedSymbol == st.selectedSymbol && r.availableTimeframes == st.availableTimeframes
  {
    st.(selectedTimeframe := Some(timeframe))
  }

  /** `reset`. */
  function Reset(st: ChartState): (r: ChartState)
    ensures r == Initial
  {
    Initial
  }

  /** After `setSymbol` the selected timeframe, if any, is one the symbol offers. */
  lemma SelectionOffered(st: ChartState, symbol: string, timeframes: seq<string>)
    ensures var r := SetSymbol(st, symbol, timeframes);
      r.selectedTimeframe.Some? ==> r.selectedTimeframe.value in r.availableTimeframes
  {
  }

  /** `setSymbol` forgets the previous state entirely. */
  lemma SetSymbolForgets(a: ChartState, b: ChartState, symbol: string, timeframes: seq<string>)
    ensures SetSymbol(a, symbol, timeframes) == SetSymbol(b, symbol, timeframes)
  {
  }

  /** `setTimeframe` can select a timeframe the symbol does not offer. */
  lemma SetTimeframeUnchecked()
    ensures var r := SetTimeframe(SetSymbol(Initial, "EURUSD", ["H1"]), "D1");
      r.selectedTimeframe == Some("D1") && "D1" !in r.availableTimeframes
  {
  }

  /** Resetting twice is resetting once. */
  lemma ResetIdempotent(st: ChartState)
    ensures Reset(Reset(st)) == Reset(st)
  {
  }
}
