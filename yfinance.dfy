/**
 * The Yahoo Finance importer (`upload_function/yfinance.rs`): reading the
 * chart arrays of one response into candles, writing candles as CSV, checking
 * the name a download is saved under, and the `fetch_yfinance_data_command`
 * entry point that downloads each requested timeframe and stores one record.
 *
 * The network is a value: `ChartRemote` maps each chart query to what its
 * parsed response holds. An absent query is a request that failed: transport,
 * status, JSON text, a first result that is not an object, or a value array
 * that is not an array. A result object without its `timestamp` or
 * `indicators` key is `KeyAbsent`: indexing a `serde_json` map by a key it
 * lacks panics. Each price is carried as the text Rust's `Display` gives the
 * `f64`.
 */
module YFinance {
  import opened Wrappers
  import opened Ascii
  import opened Records
  import opened Timeframes
  import opened CivilDate
  import GitHub

  /** The decimal rendering of a price: no comma, no line break. */
  type PriceText = s: string | ',' !in s && '\n' !in s

  datatype Candle = Candle(timestamp: int, open: PriceText, high: PriceText, low: PriceText, close: PriceText, volume: int)

  /**
   * The arrays of one chart response, each element as the source reads it:
   * `Some` when the JSON value is an integer (timestamps, volumes) or a
   * number (prices), `None` otherwise.
   */
  datatype ChartArrays = ChartArrays(
    timestamps: seq<Option<int>>,
    opens: seq<Option<PriceText>>,
    highs: seq<Option<PriceText>>,
    lows: seq<Option<PriceText>>,
    closes: seq<Option<PriceText>>,
    volumes: seq<Option<int>>)

  datatype ChartQuery = ChartQuery(symbol: string, interval: string, period1: string, period2: string)

  /** A parsed response: its result object lacks a key the reader indexes, or it holds the arrays. */
  datatype ChartReply = KeyAbsent | Arrays(arrays: ChartArrays)

  datatype ChartRemote = ChartRemote(charts: map<ChartQuery, ChartReply>)

  /**
   * What reading one response gives: candles, a failure the command passes
   * over, or one of the two panics, an out-of-range index or an absent key.
   */
  datatype FetchOutcome = Candles(candles: seq<Candle>) | NoCandles | IndexOutOfRange | MissingKey

  // ---------------------------------------------------------------------------
  // Reading a chart response

  /** The timestamps that are integers, in order; the others are dropped. */
  function PresentTimestamps(values: seq<Option<int>>): (ts: seq<int>)
    ensures |ts| <= |values|
  {
    if values == [] then []
    else PresentTimestamps(values[..|values| - 1]) + OptionToSeq(values[|values| - 1])
  }

  /** Each quote array has an element at every timestamp position. */
  predicate CoversTimestamps(a: ChartArrays, n: nat)
  {
    n <= |a.opens| && n <= |a.highs| && n <= |a.lows| && n <= |a.closes| && n <= |a.volumes|
  }

  /** Position `i` holds all five quote values. */
  predicate Complete(a: ChartArrays, i: nat)
  {
    CoversTimestamps(a, i + 1)
    && a.opens[i].Some? && a.highs[i].Some? && a.lows[i].Some? && a.closes[i].Some? && a.volumes[i].Some?
  }

  function CandleAt(a: ChartArrays, ts: seq<int>, i: nat): Candle
    requires i < |ts| && Complete(a, i)
  {
    Candle(ts[i], a.opens[i].value, a.highs[i].value, a.lows[i].value, a.closes[i].value, a.volumes[i].value)
  }

  /** The complete positions below `n`, in increasing order. */
  function KeptPositions(a: ChartArrays, n: nat): (kept: seq<nat>)
    ensures |kept| <= n
    ensures forall k :: 0 <= k < |kept| ==> kept[k] < n && Complete(a, kept[k])
  {
    if n == 0 then [] else KeptPositions(a, n - 1) + (if Complete(a, n - 1) then [n - 1] else [])
  }

  /** Exactly the complete positions below `n` are kept, each once, in increasing order. */
  lemma {:induction false} KeptPositionsFacts(a: ChartArrays, n: nat)
    ensures forall k, l :: 0 <= k < l < |KeptPositions(a, n)| ==> KeptPositions(a, n)[k] < KeptPositions(a, n)[l]
    ensures forall i :: 0 <= i < n && Complete(a, i) ==> i in KeptPositions(a, n)
  {
    if n > 0 {
      KeptPositionsFacts(a, n - 1);
    }
  }

  /** The candles at the complete positions among the first `n` timestamps, in order. */
  function Aligned(a: ChartArrays, ts: seq<int>, n: nat): (candles: seq<Candle>)
    requires n <= |ts|
    ensures |candles| == |KeptPositions(a, n)| <= n
    ensures forall k :: 0 <= k < |candles| ==> candles[k] == CandleAt(a, ts, KeptPositions(a, n)[k])
  {
    var kept := KeptPositions(a, n);
    seq(|kept|, k requires 0 <= k < |kept| => CandleAt(a, ts, kept[k]))
  }

  /**
   * The candle loop of `fetch_yfinance_data`: the quote arrays must reach
   * every kept timestamp, and a response without a complete position gives
   * no candles.
   */
  function ReadCandles(a: ChartArrays): (outcome: FetchOutcome)
    ensures !outcome.MissingKey?
  {
    var ts := PresentTimestamps(a.timestamps);
    if !CoversTimestamps(a, |ts|) then IndexOutOfRange
    else
      var candles := Aligned(a, ts, |ts|);
      if candles == [] then NoCandles else Candles(candles)
  }

  /**
   * `fetch_yfinance_data` on a parsed response: a result object without
   * `timestamp` or `indicators` panics, and nothing else does so before the
   * candle loop.
   */
  function ReadReply(reply: ChartReply): (outcome: FetchOutcome)
    ensures outcome.MissingKey? <==> reply.KeyAbsent?
    ensures reply.Arrays? ==> outcome == ReadCandles(reply.arrays)
  {
    match reply
    case KeyAbsent => MissingKey
    case Arrays(a) => ReadCandles(a)
  }

  /** The candles of a response are its complete positions; a full response loses none. */
  lemma ReadCandlesComplete(a: ChartArrays)
    requires var ts := PresentTimestamps(a.timestamps); |ts| > 0 && forall i :: 0 <= i < |ts| ==> Complete(a, i)
    ensures ReadCandles(a) == Candles(seq(|PresentTimestamps(a.timestamps)|,
      i requires 0 <= i < |PresentTimestamps(a.timestamps)| => CandleAt(a, PresentTimestamps(a.timestamps), i)))
  {
    var ts := PresentTimestamps(a.timestamps);
    assert CoversTimestamps(a, |ts|) by { assert Complete(a, |ts| - 1); }
    KeptAll(a, |ts|);
  }

  lemma {:induction false} KeptAll(a: ChartArrays, n: nat)
    requires forall i :: 0 <= i < n ==> Complete(a, i)
    ensures KeptPositions(a, n) == seq(n, i requires 0 <= i < n => i as nat)
  {
    if n > 0 {
      KeptAll(a, n - 1);
    }
  }

  /** `fetch_yfinance_data` once the response is parsed. */
  method AlignCandles(a: ChartArrays) returns (outcome: FetchOutcome)
    ensures outcome == ReadCandles(a)
  {
    var ts := PresentTimestamps(a.timestamps);
    var candles: seq<Candle> := [];
    var i := 0;
    while i < |ts|
      invariant 0 <= i <= |ts|
      invariant CoversTimestamps(a, i)
      invariant candles == Aligned(a, ts, i)
    {
      if !CoversTimestamps(a, i + 1) {
        assert !CoversTimestamps(a, |ts|);
        return IndexOutOfRange;
      }
      if Complete(a, i) {
        candles := candles + [CandleAt(a, ts, i)];
      }
      i := i + 1;
    }
    if candles == [] {
      return NoCandles;
    }
    outcome := Candles(candles);
  }

  // ---------------------------------------------------------------------------
  // CSV output

  const CsvHeader: string := "timestamp,open,high,low,close,volume"

  /** The six values of a CSV row, as `{}` formats them. */
  function CandleFields(c: Candle): (fields: seq<string>)
    ensures |fields| == 6 && forall i :: 0 <= i < 6 ==> ',' !in fields[i] && '\n' !in fields[i]
  {
    [IntToString(c.timestamp), c.open, c.high, c.low, c.close, IntToString(c.volume)]
  }

  function CandleLine(c: Candle): (line: string)
    ensures '\n' !in line && ',' in line
  {
    var fields := CandleFields(c);
    JoinChars(fields, ',', '\n');
    assert Join(fields, ",") == fields[0] + "," + Join(fields[1..], ",");
    assert Join(fields, ",")[|fields[0]|] == ',';
    Join(fields, ",")
  }

  /** One line per candle, each ending in a line break. */
  function CsvBody(candles: seq<Candle>): string
  {
    if candles == [] then "" else (CandleLine(candles[0]) + "\n") + CsvBody(candles[1..])
  }

  /** The text `save_candles_to_csv` writes. */
  function RenderCsv(candles: seq<Candle>): string
  {
    CsvHeader + "\n" + CsvBody(candles)
  }

  lemma {:induction false} CsvBodyAppend(candles: seq<Candle>, c: Candle)
    ensures CsvBody(candles + [c]) == CsvBody(candles) + (CandleLine(c) + "\n")
    decreases |candles|
  {
    var last := CandleLine(c) + "\n";
    if candles == [] {
      assert [] + [c] == [c];
      assert [c][1..] == [];
    } else {
      var first := CandleLine(candles[0]) + "\n";
      assert (candles + [c])[1..] == candles[1..] + [c];
      CsvBodyAppend(candles[1..], c);
      calc {
        CsvBody(candles + [c]);
        first + CsvBody(candles[1..] + [c]);
        first + (CsvBody(candles[1..]) + last);
        (first + CsvBody(candles[1..])) + last;
        CsvBody(candles) + last;
      }
    }
  }

  /** `save_candles_to_csv`, returning the text it writes. */
  method SaveCandlesToCsv(candles: seq<Candle>) returns (text: string)
    ensures text == RenderCsv(candles)
  {
    var header := CsvHeader + "\n";
    var body := "";
    var i := 0;
    while i < |candles|
      invariant 0 <= i <= |candles|
      invariant body == CsvBody(candles[..i])
    {
      CsvBodyAppend(candles[..i], candles[i]);
      assert candles[..i + 1] == candles[..i] + [candles[i]];
      body := body + (CandleLine(candles[i]) + "\n");
      i := i + 1;
    }
    assert candles[..i] == candles;
    text := header + body;
  }

  function CandleLines(candles: seq<Candle>): (lines: seq<string>)
    ensures |lines| == |candles| && forall i :: 0 <= i < |candles| ==> lines[i] == CandleLine(candles[i])
  {
    seq(|candles|, i requires 0 <= i < |candles| => CandleLine(candles[i]))
  }

  /** The body is the candle lines, each ended by a line break. */
  lemma {:induction false} CsvBodyTerminated(candles: seq<Candle>)
    ensures CsvBody(candles) == Terminated(CandleLines(candles), '\n')
    decreases |candles|
  {
    if candles != [] {
      CsvBodyTerminated(candles[1..]);
      assert CandleLines(candles)[1..] == CandleLines(candles[1..]);
    }
  }

  /** The body splits into one line per candle and the empty text after the last break. */
  lemma SplitCsvBody(candles: seq<Candle>)
    ensures Split(CsvBody(candles), '\n') == CandleLines(candles) + [""]
  {
    CsvBodyTerminated(candles);
    SplitTerminated(CandleLines(candles), '\n');
  }

  /** The lines of a written file: the header, one per candle, and nothing after the final break. */
  lemma RenderCsvLines(candles: seq<Candle>)
    ensures Split(RenderCsv(candles), '\n') == [CsvHeader] + CandleLines(candles) + [""]
  {
    SplitAtSeparator(CsvHeader, CsvBody(candles), '\n');
    assert "\n" == ['\n'];
    SplitCsvBody(candles);
  }

  lemma {:induction false} CountNonBlankBody(candles: seq<Candle>)
    ensures GitHub.CountNonBlank(Split(CsvBody(candles), '\n')) == |candles|
    decreases |candles|
  {
    if candles == [] {
      SplitNoSeparator("", '\n');
    } else {
      var line := CandleLine(candles[0]);
      SplitAtSeparator(line, CsvBody(candles[1..]), '\n');
      assert CsvBody(candles) == line + ['\n'] + CsvBody(candles[1..]);
      var rest := Split(CsvBody(candles[1..]), '\n');
      assert ([line] + rest)[1..] == rest;
      assert !IsBlank(line) by {
        var k :| 0 <= k < |line| && line[k] == ',';
      }
      CountNonBlankBody(candles[1..]);
    }
  }

  /**
   * A file written by this importer and counted by the GitHub importer's
   * `count_csv_lines` gives back its number of candles.
   */
  lemma CountOfRenderedCsv(candles: seq<Candle>)
    ensures GitHub.CountCsvLines(RenderCsv(candles)) == |candles|
  {
    assert !IsBlank(CsvHeader) by { assert CsvHeader[0] == 't'; }
    GitHub.CountCsvLinesAfterHeader(CsvHeader, CsvBody(candles));
    CountNonBlankBody(candles);
  }

  /** Each written line reads back, field by field, as the candle it came from. */
  lemma CandleLineFields(c: Candle)
    ensures Split(CandleLine(c), ',') == CandleFields(c)
  {
    SplitJoin(CandleFields(c), ',');
  }

  // ---------------------------------------------------------------------------
  // The command

  datatype YFinanceRequest = YFinanceRequest(symbol: string, saveAs: string, startDate: string, endDate: string, timeframes: seq<string>)

  datatype YFinanceResult = YFinanceResult(symbol: string, timeframesDownloaded: seq<string>, totalCandles: nat)

  datatype YFinanceError =
    | EmptyName
    | InvalidName
    | AlreadyExists(symbol: string)
    | InvalidDate(text: string)
    | Unsupported(timeframe: string)
    | Panicked
    | NothingDownloaded

  predicate IsNameChar(c: char)
  {
    IsAlphanumeric(c) || c == '_'
  }

  /** The save-as checks: upper-cased, not empty, only letters, digits and underscores. */
  function ValidateSaveAs(saveAs: string): (r: Result<string, YFinanceError>)
    ensures r.Ok? <==> saveAs != [] && forall i :: 0 <= i < |saveAs| ==> IsNameChar(saveAs[i])
    ensures r.Ok? ==> r.value == ToUpper(saveAs)
    ensures r.Err? ==> r.error == (if saveAs == [] then EmptyName else InvalidName)
  {
    var name := ToUpper(saveAs);
    if name == [] then Err(EmptyName)
    else if exists i :: 0 <= i < |name| && !IsNameChar(name[i]) then Err(InvalidName)
    else Ok(name)
  }

  /**
   * An accepted name is upper-case, is accepted again unchanged, and cannot
   * leave the directory it names a file or folder in.
   */
  lemma ValidatedNameFacts(saveAs: string)
    requires ValidateSaveAs(saveAs).Ok?
    ensures var name := ValidateSaveAs(saveAs).value;
      && ValidateSaveAs(name) == Ok(name)
      && ToUpper(name) == name
      && '/' !in name && '.' !in name && '\\' !in name
  {
    ToUpperIdempotent(saveAs);
  }

  /** A timeframe staged by this importer for `name`. */
  predicate IsYahooStagedInfo(info: TimeframeInfo, name: string)
  {
    info.name in YFinanceOrder && info.displayName == YFinanceDisplay(info.name) && info.filePath == TempCsvPath(name, info.name)
  }

  /** The downloads so far, or the error that ended the loop. */
  datatype LoopState = Running(infos: seq<TimeframeInfo>, downloaded: seq<string>) | Stopped(error: YFinanceError)

  /**
   * One requested timeframe: an unmapped code ends the command; a failed or
   * empty download is passed over; a panic while reading ends it; otherwise
   * the timeframe is staged with its candle count.
   */
  function TimeframeStep(remote: ChartRemote, symbol: string, name: string, period1: string, period2: string,
                         st: LoopState, tf: string): LoopState
  {
    if st.Stopped? then st
    else match YFinanceInterval(tf)
      case None => Stopped(Unsupported(tf))
      case Some(interval) =>
        var query := ChartQuery(symbol, interval, period1, period2);
        if query !in remote.charts then st
        else match ReadReply(remote.charts[query])
          case IndexOutOfRange => Stopped(Panicked)
          case MissingKey => Stopped(Panicked)
          case NoCandles => st
          case Candles(candles) =>
            Running(st.infos + [TimeframeInfo(tf, YFinanceDisplay(tf), |candles|, TempCsvPath(name, tf))], st.downloaded + [tf])
  }

  function TimeframeLoop(remote: ChartRemote, symbol: string, name: string, period1: string, period2: string,
                         tfs: seq<string>): LoopState
  {
    if tfs == [] then Running([], [])
    else TimeframeStep(remote, symbol, name, period1, period2,
                       TimeframeLoop(remote, symbol, name, period1, period2, tfs[..|tfs| - 1]), tfs[|tfs| - 1])
  }

  /** A code lets the loop go on: it has a Yahoo interval and its response, if any, does not panic. */
  predicate Proceeds(remote: ChartRemote, symbol: string, period1: string, period2: string, tf: string)
  {
    YFinanceInterval(tf).Some? &&
    var query := ChartQuery(symbol, YFinanceInterval(tf).value, period1, period2);
    query in remote.charts ==> var outcome := ReadReply(remote.charts[query]); !outcome.IndexOutOfRange? && !outcome.MissingKey?
  }

  /** What one code stages when its response has candles: its timeframe with the candle count. */
  function FetchedInfo(remote: ChartRemote, symbol: string, name: string, period1: string, period2: string,
                       tf: string): (staged: seq<TimeframeInfo>)
    ensures |staged| <= 1
    ensures staged != [] ==> staged[0].name == tf && IsYahooStagedInfo(staged[0], name)
  {
    match YFinanceInterval(tf)
    case None => []
    case Some(interval) =>
      var query := ChartQuery(symbol, interval, period1, period2);
      if query in remote.charts && ReadReply(remote.charts[query]).Candles? then
        [TimeframeInfo(tf, YFinanceDisplay(tf), |ReadReply(remote.charts[query]).candles|, TempCsvPath(name, tf))]
      else []
  }

  /** The timeframes staged for the requested codes whose responses have candles, in request order. */
  function Fetched(remote: ChartRemote, symbol: string, name: string, period1: string, period2: string,
                   tfs: seq<string>): seq<TimeframeInfo>
  {
    if tfs == [] then []
    else Fetched(remote, symbol, name, period1, period2, tfs[..|tfs| - 1])
         + FetchedInfo(remote, symbol, name, period1, period2, tfs[|tfs| - 1])
  }

  function InfoNames(infos: seq<TimeframeInfo>): (names: seq<string>)
    ensures |names| == |infos| && forall k :: 0 <= k < |infos| ==> names[k] == infos[k].name
  {
    seq(|infos|, k requires 0 <= k < |infos| => infos[k].name)
  }

  /** A code is among the fetched ones exactly when it is requested and its response has candles. */
  lemma {:induction false} FetchedNames(remote: ChartRemote, symbol: string, name: string, period1: string, period2: string,
                                        tfs: seq<string>)
    ensures forall tf ::
      tf in InfoNames(Fetched(remote, symbol, name, period1, period2, tfs))
      <==> tf in tfs && FetchedInfo(remote, symbol, name, period1, period2, tf) != []
    decreases |tfs|
  {
    if tfs != [] {
      var prefix := tfs[..|tfs| - 1];
      var last := tfs[|tfs| - 1];
      FetchedNames(remote, symbol, name, period1, period2, prefix);
      var a := Fetched(remote, symbol, name, period1, period2, prefix);
      var b := FetchedInfo(remote, symbol, name, period1, period2, last);
      assert InfoNames(a + b) == InfoNames(a) + InfoNames(b);
      assert tfs == prefix + [last];
      forall tf ensures tf in InfoNames(a + b) <==> tf in tfs && FetchedInfo(remote, symbol, name, period1, period2, tf) != [] {
        assert tf in tfs <==> tf in prefix || tf == last;
      }
    }
  }

  /**
   * While the loop runs, the downloaded codes are the staged timeframes'
   * names, each a requested code the importer supports.
   */
  predicate ProgressOk(st: LoopState, name: string, tfs: seq<string>)
    requires st.Running?
  {
    && |st.infos| == |st.downloaded|
    && (forall k :: 0 <= k < |st.infos| ==> st.infos[k].name == st.downloaded[k] && IsYahooStagedInfo(st.infos[k], name))
    && (forall k :: 0 <= k < |st.downloaded| ==> st.downloaded[k] in tfs)
  }

  lemma {:induction false} TimeframeLoopFacts(remote: ChartRemote, symbol: string, name: string, period1: string, period2: string,
                                              tfs: seq<string>)
    ensures var st := TimeframeLoop(remote, symbol, name, period1, period2, tfs);
      && (st.Running? <==> forall k :: 0 <= k < |tfs| ==> Proceeds(remote, symbol, period1, period2, tfs[k]))
      && (st.Running? ==> ProgressOk(st, name, tfs))
      && (st.Running? ==> st.infos == Fetched(remote, symbol, name, period1, period2, tfs) && st.downloaded == InfoNames(st.infos))
      && (st.Stopped? ==> st.error.Unsupported? || st.error.Panicked?)
    decreases |tfs|
  {
    if tfs != [] {
      var prefix := tfs[..|tfs| - 1];
      TimeframeLoopFacts(remote, symbol, name, period1, period2, prefix);
      var st := TimeframeLoop(remote, symbol, name, period1, period2, prefix);
      var tf := tfs[|tfs| - 1];
      assert forall k :: 0 <= k < |prefix| ==> prefix[k] == tfs[k];
      if st.Running? && YFinanceInterval(tf).Some? {
        assert forall k :: 0 <= k < |st.downloaded| ==> st.downloaded[k] in prefix;
        assert forall x :: x in prefix ==> x in tfs;
      }
    }
    LoopRunningIff(remote, symbol, name, period1, period2, tfs);
    LoopFetched(remote, symbol, name, period1, period2, tfs);
  }

  lemma {:induction false} LoopRunningIff(remote: ChartRemote, symbol: string, name: string, period1: string, period2: string,
                                          tfs: seq<string>)
    ensures TimeframeLoop(remote, symbol, name, period1, period2, tfs).Running?
      <==> forall k :: 0 <= k < |tfs| ==> Proceeds(remote, symbol, period1, period2, tfs[k])
    decreases |tfs|
  {
    if tfs != [] {
      var prefix := tfs[..|tfs| - 1];
      LoopRunningIff(remote, symbol, name, period1, period2, prefix);
      var st := TimeframeLoop(remote, symbol, name, period1, period2, prefix);
      assert forall k :: 0 <= k < |prefix| ==> prefix[k] == tfs[k];
      if !st.Running? {
        var k :| 0 <= k < |prefix| && !Proceeds(remote, symbol, period1, period2, prefix[k]);
        assert !Proceeds(remote, symbol, period1, period2, tfs[k]);
      }
    }
  }

  lemma {:induction false} LoopFetched(remote: ChartRemote, symbol: string, name: string, period1: string, period2: string,
                                       tfs: seq<string>)
    ensures var st := TimeframeLoop(remote, symbol, name, period1, period2, tfs);
      st.Running? ==> st.infos == Fetched(remote, symbol, name, period1, period2, tfs) && st.downloaded == InfoNames(st.infos)
    decreases |tfs|
  {
    if tfs != [] {
      var prefix := tfs[..|tfs| - 1];
      LoopFetched(remote, symbol, name, period1, period2, prefix);
      var st := TimeframeLoop(remote, symbol, name, period1, period2, prefix);
      var tf := tfs[|tfs| - 1];
      assert TimeframeLoop(remote, symbol, name, period1, period2, tfs) == TimeframeStep(remote, symbol, name, period1, period2, st, tf);
      assert Fetched(remote, symbol, name, period1, period2, tfs)
          == Fetched(remote, symbol, name, period1, period2, prefix) + FetchedInfo(remote, symbol, name, period1, period2, tf);
      if st.Running? {
        StepFetched(remote, symbol, name, period1, period2, st, tf);
        var added := FetchedInfo(remote, symbol, name, period1, period2, tf);
        assert InfoNames(st.infos + added) == InfoNames(st.infos) + InfoNames(added);
      }
    }
  }

  /** A step that keeps the loop going adds what the code fetches, if anything. */
  lemma StepFetched(remote: ChartRemote, symbol: string, name: string, period1: string, period2: string,
                    st: LoopState, tf: string)
    requires st.Running?
    ensures var next := TimeframeStep(remote, symbol, name, period1, period2, st, tf);
      var added := FetchedInfo(remote, symbol, name, period1, period2, tf);
      next.Running? ==> next == Running(st.infos + added, st.downloaded + InfoNames(added))
  {
    var added := FetchedInfo(remote, symbol, name, period1, period2, tf);
    if added == [] {
      assert st.infos + added == st.infos && st.downloaded + InfoNames(added) == st.downloaded;
    } else {
      assert InfoNames(added) == [tf];
    }
  }

  /** A request holding a code without a Yahoo interval never gets past the loop. */
  lemma UnsupportedStopsLoop(remote: ChartRemote, symbol: string, name: string, period1: string, period2: string,
                             tfs: seq<string>, k: nat)
    requires k < |tfs| && tfs[k] !in YFinanceOrder
    ensures TimeframeLoop(remote, symbol, name, period1, period2, tfs).Stopped?
  {
    assert tfs[..k + 1][..k] == tfs[..k];
    LoopStopsAt(remote, symbol, name, period1, period2, tfs, k + 1, TimeframeLoop(remote, symbol, name, period1, period2, tfs[..k + 1]));
  }

  /** A requested code whose response lacks the `timestamp` or `indicators` key ends the loop. */
  lemma MissingKeyStopsLoop(remote: ChartRemote, symbol: string, name: string, period1: string, period2: string,
                            tfs: seq<string>, k: nat)
    requires k < |tfs| && YFinanceInterval(tfs[k]).Some?
    requires ChartQuery(symbol, YFinanceInterval(tfs[k]).value, period1, period2) in remote.charts
    requires remote.charts[ChartQuery(symbol, YFinanceInterval(tfs[k]).value, period1, period2)].KeyAbsent?
    ensures TimeframeLoop(remote, symbol, name, period1, period2, tfs).Stopped?
  {
    TimeframeLoopFacts(remote, symbol, name, period1, period2, tfs);
    assert !Proceeds(remote, symbol, period1, period2, tfs[k]);
  }

  /** The command once the name is validated, with `staging` the data directory holding `temp/NAME`. */
  function DatedRun(req: YFinanceRequest, name: string, remote: ChartRemote, now: string,
                    disk: AppData, staging: AppData): (Result<YFinanceResult, YFinanceError>, AppData)
  {
    var start := ConvertDateToTimestamp(req.startDate);
    var end := ConvertDateToTimestamp(req.endDate);
    if start.None? then (Err(InvalidDate(req.startDate)), staging)
    else if end.None? then (Err(InvalidDate(req.endDate)), staging)
    else FinishRun(name, TimeframeLoop(remote, req.symbol, name, start.value, end.value, req.timeframes), now, disk, staging)
  }

  /** After the loop: an error, nothing downloaded, or the record saved. */
  function FinishRun(name: string, st: LoopState, now: string, disk: AppData, staging: AppData): (Result<YFinanceResult, YFinanceError>, AppData)
  {
    if st.Stopped? then (Err(st.error), staging)
    else if st.infos == [] then (Err(NothingDownloaded), staging.(tempDirs := staging.tempDirs - {name}))
    else
      var data := SymbolData(name, SortByRank(YFinanceOrder, st.infos), TotalCandles(st.infos), now);
      (Ok(YFinanceResult(name, st.downloaded, TotalCandles(st.infos))),
       AppData(disk.symbols[name := data], staging.tempDirs - {name}))
  }

  /** `fetch_yfinance_data_command` as a function of the request, the remote and the data directory. */
  function YahooRun(req: YFinanceRequest, remote: ChartRemote, now: string, disk: AppData): (Result<YFinanceResult, YFinanceError>, AppData)
  {
    var checked := ValidateSaveAs(req.saveAs);
    if checked.Err? then (Err(checked.error), disk)
    else if SymbolExists(disk, checked.value) then (Err(AlreadyExists(checked.value)), disk)
    else DatedRun(req, checked.value, remote, now, disk, disk.(tempDirs := disk.tempDirs + {checked.value}))
  }

  /** The timeframes a run for `name` fetches once both dates are read, in request order. */
  function Staged(req: YFinanceRequest, name: string, remote: ChartRemote): seq<TimeframeInfo>
  {
    var start := ConvertDateToTimestamp(req.startDate);
    var end := ConvertDateToTimestamp(req.endDate);
    if start.None? || end.None? then []
    else Fetched(remote, req.symbol, name, start.value, end.value, req.timeframes)
  }

  /** A run for an accepted name that is not yet stored keeps `RunPost`. */
  lemma DatedRunFacts(req: YFinanceRequest, name: string, remote: ChartRemote, now: string, disk: AppData)
    requires ValidAppData(disk) && name !in disk.symbols
    ensures RunPost(req, name, Staged(req, name, remote), disk, DatedRun(req, name, remote, now, disk, disk.(tempDirs := disk.tempDirs + {name})))
    ensures var start := ConvertDateToTimestamp(req.startDate);
      var end := ConvertDateToTimestamp(req.endDate);
      DatedRun(req, name, remote, now, disk, disk.(tempDirs := disk.tempDirs + {name})).0.Ok?
      <==> && start.Some? && end.Some?
           && (forall k :: 0 <= k < |req.timeframes| ==> Proceeds(remote, req.symbol, start.value, end.value, req.timeframes[k]))
           && Staged(req, name, remote) != []
  {
    var start := ConvertDateToTimestamp(req.startDate);
    var end := ConvertDateToTimestamp(req.endDate);
    if start.Some? && end.Some? {
      TimeframeLoopFacts(remote, req.symbol, name, start.value, end.value, req.timeframes);
      FinishRunFacts(req, name, Staged(req, name, remote), TimeframeLoop(remote, req.symbol, name, start.value, end.value, req.timeframes), now, disk);
    }
  }

  /**
   * What a run promises once the name is accepted: the records stay valid; a
   * failure stores nothing; a success stores the record `YahooSaved`
   * describes for the `staged` timeframes; the staging directory is kept
   * exactly on a date error, an unsupported code or a panic; other staging
   * directories are untouched.
   */
  ghost predicate RunPost(req: YFinanceRequest, name: string, staged: seq<TimeframeInfo>, disk: AppData,
                          run: (Result<YFinanceResult, YFinanceError>, AppData))
  {
    var (r, after) := run;
    && ValidAppData(after)
    && (r.Err? ==> after.symbols == disk.symbols)
    && (r.Ok? ==> YahooSaved(req, name, staged, r.value, disk, after))
    && (name in after.tempDirs <==> r.Err? && (r.error.InvalidDate? || r.error.Unsupported? || r.error.Panicked?))
    && (forall d :: d != name ==> (d in after.tempDirs <==> d in disk.tempDirs))
  }

  lemma FinishRunFacts(req: YFinanceRequest, name: string, staged: seq<TimeframeInfo>, st: LoopState, now: string, disk: AppData)
    requires ValidAppData(disk) && name !in disk.symbols
    requires st.Running? ==> ProgressOk(st, name, req.timeframes) && st.infos == staged && st.downloaded == InfoNames(staged)
    requires st.Stopped? ==> st.error.Unsupported? || st.error.Panicked?
    ensures RunPost(req, name, staged, disk, FinishRun(name, st, now, disk, disk.(tempDirs := disk.tempDirs + {name})))
    ensures var r := FinishRun(name, st, now, disk, disk.(tempDirs := disk.tempDirs + {name})).0;
      && (st.Running? ==> (r.Ok? <==> staged != []))
      && (st.Running? && staged == [] ==> r == Err(NothingDownloaded))
      && (st.Stopped? ==> r == Err(st.error))
  {
    if st.Running? && st.infos != [] {
      SavedRunPost(req, name, st, now, disk);
    }
  }

  lemma SavedRunPost(req: YFinanceRequest, name: string, st: LoopState, now: string, disk: AppData)
    requires ValidAppData(disk) && name !in disk.symbols
    requires st.Running? && st.infos != [] && ProgressOk(st, name, req.timeframes) && st.downloaded == InfoNames(st.infos)
    ensures RunPost(req, name, st.infos, disk, FinishRun(name, st, now, disk, disk.(tempDirs := disk.tempDirs + {name})))
  {
    YahooRecordFacts(name, st.infos, now);
    var data := SymbolData(name, SortByRank(YFinanceOrder, st.infos), TotalCandles(st.infos), now);
    var after := AppData(disk.symbols[name := data], disk.tempDirs + {name} - {name});
    var result := YFinanceResult(name, st.downloaded, TotalCandles(st.infos));
    forall k: nat ensures WithRank(YFinanceOrder, data.timeframes, k) == WithRank(YFinanceOrder, st.infos, k) {
      SortByRankStable(YFinanceOrder, st.infos, k);
    }
    assert YahooSaved(req, name, st.infos, result, disk, after);
    assert ValidAppData(after);
  }

  /**
   * What a success leaves in the data directory: one new record holding the
   * `staged` timeframes, stably sorted into the Yahoo order, and a result
   * listing their codes in the order they were downloaded.
   */
  ghost predicate YahooSaved(req: YFinanceRequest, name: string, staged: seq<TimeframeInfo>, result: YFinanceResult,
                       disk: AppData, after: AppData)
  {
    && result.symbol == name
    && result.timeframesDownloaded == InfoNames(staged)
    && result.totalCandles == TotalCandles(staged)
    && name in after.symbols
    && after.symbols == disk.symbols[name := after.symbols[name]]
    && var data := after.symbols[name];
    && data.symbol == name
    && WellFormedRecord(data)
    && data.totalCandles == result.totalCandles
    && |data.timeframes| == |result.timeframesDownloaded|
    && multiset(data.timeframes) == multiset(staged)
    && (forall k: nat :: WithRank(YFinanceOrder, data.timeframes, k) == WithRank(YFinanceOrder, staged, k))
    && SortedByRank(YFinanceOrder, data.timeframes)
    && (forall info :: info in data.timeframes ==> IsYahooStagedInfo(info, name))
    && (forall k :: 0 <= k < |result.timeframesDownloaded| ==> result.timeframesDownloaded[k] in req.timeframes)
    && name !in after.tempDirs
  }

  lemma YahooRecordFacts(name: string, infos: seq<TimeframeInfo>, now: string)
    requires infos != [] && forall info :: info in infos ==> IsYahooStagedInfo(info, name)
    ensures var data := SymbolData(name, SortByRank(YFinanceOrder, infos), TotalCandles(infos), now);
      && WellFormedRecord(data)
      && SortedByRank(YFinanceOrder, data.timeframes)
      && forall info :: info in data.timeframes ==> IsYahooStagedInfo(info, name)
  {
    TotalCandlesSort(YFinanceOrder, infos);
    SortByRankSorted(YFinanceOrder, infos);
    var sorted := SortByRank(YFinanceOrder, infos);
    forall info | info in sorted ensures IsYahooStagedInfo(info, name) {
      assert info in multiset(sorted);
    }
  }

  /**
   * The command never changes or removes a stored record and keeps every
   * record valid; a rejected name or an existing symbol changes nothing.
   */
  lemma YahooRunFacts(req: YFinanceRequest, remote: ChartRemote, now: string, disk: AppData)
    requires ValidAppData(disk)
    ensures var (r, after) := YahooRun(req, remote, now, disk);
      && ValidAppData(after)
      && (forall s :: s in disk.symbols ==> s in after.symbols && after.symbols[s] == disk.symbols[s])
      && (r.Err? ==> after.symbols == disk.symbols)
      && (r.Err? && (r.error.EmptyName? || r.error.InvalidName? || r.error.AlreadyExists?) ==> after == disk)
      && (r.Ok? ==> r.value.symbol == ValidateSaveAs(req.saveAs).value && r.value.symbol !in disk.symbols
                    && YahooSaved(req, r.value.symbol, Staged(req, r.value.symbol, remote), r.value, disk, after))
  {
    var checked := ValidateSaveAs(req.saveAs);
    if checked.Ok? && !SymbolExists(disk, checked.value) {
      var name := checked.value;
      var run := DatedRun(req, name, remote, now, disk, disk.(tempDirs := disk.tempDirs + {name}));
      assert YahooRun(req, remote, now, disk) == run;
      DatedRunFacts(req, name, remote, now, disk);
      assert RunPost(req, name, Staged(req, name, remote), disk, run);
      if run.0.Ok? {
        assert run.1.symbols == disk.symbols[name := run.1.symbols[name]];
      }
    }
  }

  /**
   * When the command succeeds: the name is accepted and not stored, both
   * dates are read, every requested code proceeds, and at least one response
   * has candles. Each earlier step that fails gives its own error, and a run
   * that gets through the loop fails only when nothing was downloaded.
   */
  lemma YahooRunOutcome(req: YFinanceRequest, remote: ChartRemote, now: string, disk: AppData)
    ensures var r := YahooRun(req, remote, now, disk).0;
      var checked := ValidateSaveAs(req.saveAs);
      var start := ConvertDateToTimestamp(req.startDate);
      var end := ConvertDateToTimestamp(req.endDate);
      var dated := checked.Ok? && checked.value !in disk.symbols && start.Some? && end.Some?;
      var loopOk := dated && forall k :: 0 <= k < |req.timeframes| ==> Proceeds(remote, req.symbol, start.value, end.value, req.timeframes[k]);
      && (r.Ok? <==> loopOk && Staged(req, checked.value, remote) != [])
      && (loopOk && r.Err? ==> r.error == NothingDownloaded)
      && (dated && !loopOk ==> r.Err? && (r.error.Unsupported? || r.error.Panicked?))
      && (checked.Err? ==> r.Err? && r.error == checked.error)
      && (checked.Ok? && checked.value in disk.symbols ==> r.Err? && r.error == AlreadyExists(checked.value))
      && (checked.Ok? && checked.value !in disk.symbols && start.None? ==> r.Err? && r.error == InvalidDate(req.startDate))
      && (checked.Ok? && checked.value !in disk.symbols && start.Some? && end.None? ==> r.Err? && r.error == InvalidDate(req.endDate))
  {
    var checked := ValidateSaveAs(req.saveAs);
    var start := ConvertDateToTimestamp(req.startDate);
    var end := ConvertDateToTimestamp(req.endDate);
    if checked.Ok? && checked.value !in disk.symbols && start.Some? && end.Some? {
      TimeframeLoopFacts(remote, req.symbol, checked.value, start.value, end.value, req.timeframes);
    }
  }

  /** Any requested code without a Yahoo interval makes the whole command fail. */
  lemma UnsupportedCodeFails(req: YFinanceRequest, remote: ChartRemote, now: string, disk: AppData, k: nat)
    requires k < |req.timeframes| && req.timeframes[k] !in YFinanceOrder
    ensures YahooRun(req, remote, now, disk).0.Err?
  {
    var checked := ValidateSaveAs(req.saveAs);
    var start := ConvertDateToTimestamp(req.startDate);
    var end := ConvertDateToTimestamp(req.endDate);
    if checked.Ok? && start.Some? && end.Some? {
      UnsupportedStopsLoop(remote, req.symbol, checked.value, start.value, end.value, req.timeframes, k);
    }
  }

  /** `fetch_yfinance_data_command`. */
  method FetchYFinanceData(req: YFinanceRequest, remote: ChartRemote, now: string, disk: AppData)
    returns (r: Result<YFinanceResult, YFinanceError>, after: AppData)
    ensures (r, after) == YahooRun(req, remote, now, disk)
  {
    var checked := ValidateSaveAs(req.saveAs);
    if checked.Err? {
      return Err(checked.error), disk;
    }
    var name := checked.value;
    if SymbolExists(disk, name) {
      return Err(AlreadyExists(name)), disk;
    }
    after := disk.(tempDirs := disk.tempDirs + {name});
    var start := ConvertDateToTimestamp(req.startDate);
    if start.None? {
      return Err(InvalidDate(req.startDate)), after;
    }
    var end := ConvertDateToTimestamp(req.endDate);
    if end.None? {
      return Err(InvalidDate(req.endDate)), after;
    }
    var st := DownloadTimeframes(remote, req.symbol, name, start.value, end.value, req.timeframes);
    if st.Stopped? {
      return Err(st.error), after;
    }
    if st.infos == [] {
      return Err(NothingDownloaded), after.(tempDirs := after.tempDirs - {name});
    }
    var total := TotalCandles(st.infos);
    var data := SymbolData(name, SortByRank(YFinanceOrder, st.infos), total, now);
    after := AppData(disk.symbols[name := data], after.tempDirs - {name});
    r := Ok(YFinanceResult(name, st.downloaded, total));
  }

  /** The timeframe loop of `fetch_yfinance_data_command`. */
  method DownloadTimeframes(remote: ChartRemote, symbol: string, name: string, period1: string, period2: string,
                            tfs: seq<string>) returns (st: LoopState)
    ensures st == TimeframeLoop(remote, symbol, name, period1, period2, tfs)
  {
    var infos: seq<TimeframeInfo> := [];
    var downloaded: seq<string> := [];
    var i := 0;
    while i < |tfs|
      invariant 0 <= i <= |tfs|
      invariant TimeframeLoop(remote, symbol, name, period1, period2, tfs[..i]) == Running(infos, downloaded)
    {
      assert tfs[..i + 1][..i] == tfs[..i];
      var tf := tfs[i];
      var interval := YFinanceInterval(tf);
      if interval.None? {
        st := Stopped(Unsupported(tf));
        LoopStopsAt(remote, symbol, name, period1, period2, tfs, i + 1, st);
        return;
      }
      var query := ChartQuery(symbol, interval.value, period1, period2);
      if query in remote.charts {
        if remote.charts[query].KeyAbsent? {
          st := Stopped(Panicked);
          LoopStopsAt(remote, symbol, name, period1, period2, tfs, i + 1, st);
          return;
        }
        var outcome := AlignCandles(remote.charts[query].arrays);
        if outcome.IndexOutOfRange? {
          st := Stopped(Panicked);
          LoopStopsAt(remote, symbol, name, period1, period2, tfs, i + 1, st);
          return;
        }
        if outcome.Candles? {
          infos := infos + [TimeframeInfo(tf, YFinanceDisplay(tf), |outcome.candles|, TempCsvPath(name, tf))];
          downloaded := downloaded + [tf];
        }
      }
      i := i + 1;
    }
    assert tfs[..i] == tfs;
    st := Running(infos, downloaded);
  }

  /** Once the loop has stopped with an error, that error is the loop's result. */
  lemma {:induction false} LoopStopsAt(remote: ChartRemote, symbol: string, name: string, period1: string, period2: string,
                                       tfs: seq<string>, i: nat, st: LoopState)
    requires i <= |tfs| && st.Stopped? && TimeframeLoop(remote, symbol, name, period1, period2, tfs[..i]) == st
    ensures TimeframeLoop(remote, symbol, name, period1, period2, tfs) == st
    decreases |tfs| - i
  {
    if i < |tfs| {
      assert tfs[..i + 1][..i] == tfs[..i];
      LoopStopsAt(remote, symbol, name, period1, period2, tfs, i + 1, st);
    } else {
      assert tfs[..i] == tfs;
    }
  }
}
