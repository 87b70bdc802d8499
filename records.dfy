/**
 * The per-symbol record every ingestion path produces (`SymbolData` with its
 * `TimeframeInfo` list) and the application data directory those paths write:
 * one JSON record per symbol under `symbols/` and transient staging
 * directories under `temp/`.
 */
module Records {

  datatype TimeframeInfo = TimeframeInfo(name: string, displayName: string, candleCount: nat, filePath: string)

  datatype SymbolData = SymbolData(symbol: string, timeframes: seq<TimeframeInfo>, totalCandles: nat, uploadedAt: string)

  /** The sum of the candle counts of a list of timeframes. */
  function TotalCandles(infos: seq<TimeframeInfo>): (total: nat)
    ensures infos == [] ==> total == 0
    ensures forall i :: 0 <= i < |infos| ==> infos[i].candleCount <= total
  {
    if infos == [] then 0 else infos[0].candleCount + TotalCandles(infos[1..])
  }

  lemma {:induction false} TotalCandlesAppend(a: seq<TimeframeInfo>, b: seq<TimeframeInfo>)
    ensures TotalCandles(a + b) == TotalCandles(a) + TotalCandles(b)
    decreases |a|
  {
    if a != [] {
      assert (a + b)[1..] == a[1..] + b;
      TotalCandlesAppend(a[1..], b);
    } else {
      assert a + b == b;
    }
  }

  /**
   * What every stored record satisfies: it has at least one timeframe and its
   * total is the sum of its timeframes' counts.
   */
  predicate WellFormedRecord(d: SymbolData)
  {
    d.timeframes != [] && d.totalCandles == TotalCandles(d.timeframes)
  }

  /**
   * The application data directory: `symbols` maps a file stem `S` of
   * `symbols/S.json` to the record stored there; `tempDirs` holds the names `N`
   * of the staging directories `temp/N` that exist.
   */
  datatype AppData = AppData(symbols: map<string, SymbolData>, tempDirs: set<string>)

  /** Every stored record is well formed and stored under its own symbol. */
  predicate ValidAppData(disk: AppData)
  {
    forall s :: s in disk.symbols ==> disk.symbols[s].symbol == s && WellFormedRecord(disk.symbols[s])
  }

  /** `check_symbol_exists`: the record file for `symbol` is present. */
  predicate SymbolExists(disk: AppData, symbol: string)
  {
    symbol in disk.symbols
  }

  /** The staging path of one timeframe's CSV, relative to the data directory. */
  function TempCsvPath(dir: string, timeframe: string): string
  {
    "temp/" + dir + "/" + timeframe + ".csv"
  }
}
