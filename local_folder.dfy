/**
 * `process_chart_folder` and `count_and_validate_csv` (`commands.rs`): a
 * local folder named after a symbol holds one `TIMEFRAME.csv` per timeframe;
 * every CSV file is validated and its data rows counted, failing on the first
 * bad file.
 *
 * The filesystem is an input value: a path is missing, not a directory, or a
 * directory with a name and a listing; a CSV file is unopenable or the
 * records the reader yields after the header line, each already split into
 * fields or an unreadable record.
 */
module LocalFolder {
  import opened Wrappers
  import opened Ascii
  import opened NumberSyntax

  datatype CsvRecord = Unreadable | Record(fields: seq<string>)

  datatype CsvFile = Unopenable | Records(rows: seq<CsvRecord>)

  /** Why a CSV file is refused; `row` is the line number, the header being line 1. */
  datatype CsvError =
    | OpenFailed
    | RowUnreadable(row: nat)
    | TooFewColumns(row: nat, found: nat)
    | InvalidTimestamp(row: nat)
    | InvalidNumber(row: nat, column: nat)
    | EmptyFile

  /** The line number of the data row at `index`: the header is line 1. */
  function RowNumber(index: nat): nat
  {
    index + 2
  }

  function ErrorRow(e: CsvError): nat
    requires !e.OpenFailed? && !e.EmptyFile?
  {
    match e
    case RowUnreadable(row) => row
    case TooFewColumns(row, _) => row
    case InvalidTimestamp(row) => row
    case InvalidNumber(row, _) => row
  }

  /** The first of the price columns `col`..4 that does not parse as `f64`. */
  function FirstBadPrice(fields: seq<string>, col: nat): (r: Option<nat>)
    requires |fields| >= 5 && 1 <= col <= 5
    ensures r.Some? ==> col <= r.value <= 4 && !IsF64Text(fields[r.value])
                        && forall c :: col <= c < r.value ==> IsF64Text(fields[c])
    ensures r.None? <==> forall c :: col <= c <= 4 ==> IsF64Text(fields[c])
    decreases 5 - col
  {
    if col == 5 then None
    else if !IsF64Text(fields[col]) then Some(col)
    else FirstBadPrice(fields, col + 1)
  }

  /** The first data row carries an `i64` timestamp and four `f64` prices. */
  predicate WellTypedRow(fields: seq<string>)
    requires |fields| >= 5
  {
    ParseI64(fields[0]).Some? && forall c :: 1 <= c <= 4 ==> IsF64Text(fields[c])
  }

  /**
   * The check on the data row at `index`: it must be readable and have at
   * least five fields, and only the first row is type-checked.
   */
  function RowCheck(index: nat, rec: CsvRecord): (r: Option<CsvError>)
    ensures r.None? <==> rec.Record? && |rec.fields| >= 5 && (index == 0 ==> WellTypedRow(rec.fields))
    ensures r.Some? ==> !r.value.OpenFailed? && !r.value.EmptyFile? && ErrorRow(r.value) == RowNumber(index)
    ensures r.Some? && r.value.InvalidNumber? ==> index == 0 && rec.Record? && |rec.fields| >= 5 && 2 <= r.value.column <= 5
                                                  && !IsF64Text(rec.fields[r.value.column - 1])
  {
    match rec
    case Unreadable => Some(RowUnreadable(RowNumber(index)))
    case Record(fields) =>
      if |fields| < 5 then Some(TooFewColumns(RowNumber(index), |fields|))
      else if index != 0 then None
      else if ParseI64(fields[0]).None? then Some(InvalidTimestamp(RowNumber(index)))
      else match FirstBadPrice(fields, 1)
        case Some(col) => Some(InvalidNumber(RowNumber(index), col + 1))
        case None => None
  }

  /** The row loop: the count of rows read so far, or the first row's error. */
  function ValidateRows(rows: seq<CsvRecord>): Result<nat, CsvError>
  {
    if rows == [] then Ok(0)
    else match ValidateRows(rows[..|rows| - 1])
      case Err(e) => Err(e)
      case Ok(n) =>
        match RowCheck(|rows| - 1, rows[|rows| - 1])
        case Some(e) => Err(e)
        case None => Ok(n + 1)
  }

  /** `count_and_validate_csv`. */
  function CsvVerdict(file: CsvFile): Result<nat, CsvError>
  {
    match file
    case Unopenable => Err(OpenFailed)
    case Records(rows) =>
      match ValidateRows(rows)
      case Err(e) => Err(e)
      case Ok(n) => if n == 0 then Err(EmptyFile) else Ok(n)
  }

  predicate RowsPass(rows: seq<CsvRecord>)
  {
    forall i :: 0 <= i < |rows| ==> RowCheck(i, rows[i]).None?
  }

  /** The row loop succeeds exactly when every row passes, and then counts them all. */
  lemma {:induction false} ValidateRowsOk(rows: seq<CsvRecord>)
    ensures ValidateRows(rows).Ok? <==> RowsPass(rows)
    ensures ValidateRows(rows).Ok? ==> ValidateRows(rows).value == |rows|
    ensures ValidateRows(rows).Err? ==> !ValidateRows(rows).error.OpenFailed? && !ValidateRows(rows).error.EmptyFile?
    decreases |rows|
  {
    if rows != [] {
      var prefix := rows[..|rows| - 1];
      ValidateRowsOk(prefix);
      assert forall i :: 0 <= i < |prefix| ==> prefix[i] == rows[i];
    }
  }

  /**
   * Fail fast: when row `k` is the first bad one, its error is the result,
   * whatever the rows after it hold.
   */
  lemma {:induction false} ValidateRowsFirstError(rows: seq<CsvRecord>, k: nat)
    requires k < |rows| && RowCheck(k, rows[k]).Some?
    requires forall i :: 0 <= i < k ==> RowCheck(i, rows[i]).None?
    ensures ValidateRows(rows) == Err(RowCheck(k, rows[k]).value)
    decreases |rows|
  {
    var prefix := rows[..|rows| - 1];
    if k < |rows| - 1 {
      ValidateRowsFirstError(prefix, k);
    } else {
      ValidateRowsOk(prefix);
      assert RowsPass(prefix) by {
        assert forall i :: 0 <= i < |prefix| ==> prefix[i] == rows[i];
      }
    }
  }

  /**
   * A file is accepted exactly when it opens, has at least one data row and
   * every row passes; the count is then the number of data rows. A file with
   * no data row is refused as empty.
   */
  lemma CsvVerdictFacts(file: CsvFile)
    ensures CsvVerdict(file).Ok? <==> file.Records? && file.rows != [] && RowsPass(file.rows)
    ensures CsvVerdict(file).Ok? ==> CsvVerdict(file).value == |file.rows| >= 1
    ensures CsvVerdict(file) == Err(EmptyFile) <==> file.Records? && file.rows == []
  {
    if file.Records? {
      ValidateRowsOk(file.rows);
    }
  }

  lemma LaterRowPasses(index: nat, fields: seq<string>)
    requires index > 0 && |fields| >= 5
    ensures RowCheck(index, Record(fields)).None?
  {
  }

  /** Rows after the first need only five fields: their contents are never examined. */
  lemma LaterRowsUnchecked(rows: seq<CsvRecord>)
    requires rows != [] && RowCheck(0, rows[0]).None?
    requires forall i :: 1 <= i < |rows| ==> rows[i].Record? && |rows[i].fields| >= 5
    ensures CsvVerdict(Records(rows)) == Ok(|rows|)
  {
    assert RowsPass(rows) by {
      forall i | 1 <= i < |rows|
        ensures RowCheck(i, rows[i]).None?
      {
        LaterRowPasses(i, rows[i].fields);
      }
    }
    CsvVerdictFacts(Records(rows));
  }

  /** `count_and_validate_csv`: the row loop with its early returns. */
  method CountAndValidateCsv(file: CsvFile) returns (r: Result<nat, CsvError>)
    ensures r == CsvVerdict(file)
  {
    if file.Unopenable? {
      return Err(OpenFailed);
    }
    var rows := file.rows;
    var count := 0;
    var index := 0;
    while index < |rows|
      invariant 0 <= index <= |rows|
      invariant ValidateRows(rows[..index]) == Ok(count)
    {
      assert rows[..index + 1][..index] == rows[..index];
      var err := CheckRow(index, rows[index]);
      if err.Some? {
        ValidateRowsStop(rows, index + 1);
        return Err(err.value);
      }
      count := count + 1;
      index := index + 1;
    }
    assert rows[..index] == rows;
    if count == 0 {
      return Err(EmptyFile);
    }
    return Ok(count);
  }

  /** The body of the row loop: the checks on the record at `index`, in the order they are made. */
  method CheckRow(index: nat, record: CsvRecord) returns (err: Option<CsvError>)
    ensures err == RowCheck(index, record)
  {
    if record.Unreadable? {
      return Some(RowUnreadable(RowNumber(index)));
    }
    var fields := record.fields;
    if |fields| < 5 {
      return Some(TooFewColumns(RowNumber(index), |fields|));
    }
    if index == 0 {
      if ParseI64(fields[0]).None? {
        return Some(InvalidTimestamp(RowNumber(index)));
      }
      var bad := CheckPrices(fields);
      if bad.Some? {
        return Some(InvalidNumber(RowNumber(index), bad.value + 1));
      }
    }
    return None;
  }

  /** The `for col in 1..=4` loop over the first row's price columns. */
  method CheckPrices(fields: seq<string>) returns (bad: Option<nat>)
    requires |fields| >= 5
    ensures bad == FirstBadPrice(fields, 1)
  {
    for col := 1 to 5
      invariant FirstBadPrice(fields, 1) == FirstBadPrice(fields, col)
    {
      if !IsF64Text(fields[col]) {
        return Some(col);
      }
    }
    return None;
  }

  /** Once the row loop has failed on a prefix, the whole file fails the same way. */
  lemma {:induction false} ValidateRowsStop(rows: seq<CsvRecord>, k: nat)
    requires 0 < k <= |rows| && ValidateRows(rows[..k]).Err?
    ensures ValidateRows(rows) == ValidateRows(rows[..k])
    decreases |rows| - k
  {
    if k < |rows| {
      assert rows[..k + 1][..k] == rows[..k];
      ValidateRowsStop(rows, k + 1);
    } else {
      assert rows[..k] == rows;
    }
  }

  // ---------------------------------------------------------------------------
  // File names

  /** The index of the last `.` in `s`. */
  function LastDot(s: string): (r: Option<nat>)
    ensures r.None? <==> '.' !in s
    ensures r.Some? ==> r.value < |s| && s[r.value] == '.' && '.' !in s[r.value + 1..]
  {
    if s == [] then None
    else if s[|s| - 1] == '.' then Some(|s| - 1)
    else
      var r := LastDot(s[..|s| - 1]);
      assert s == s[..|s| - 1] + [s[|s| - 1]];
      if r.Some? then
        assert s[r.value + 1..] == s[..|s| - 1][r.value + 1..] + [s[|s| - 1]];
        r
      else r
  }

  /**
   * `Path::file_stem` and `Path::extension` of a file name: split at the last
   * `.`, except that `..` and a name whose only `.` is its first character
   * have no extension.
   */
  function FileParts(name: string): (r: (string, Option<string>))
    ensures r.1.None? ==> r.0 == name
    ensures r.1.Some? ==> r.0 != [] && name == r.0 + "." + r.1.value && '.' !in r.1.value
  {
    if name == ".." then (name, None)
    else match LastDot(name)
      case None => (name, None)
      case Some(i) =>
        if i == 0 then (name, None)
        else
          assert name == name[..i] + "." + name[i + 1..];
          (name[..i], Some(name[i + 1..]))
  }

  /** Only entries whose extension is exactly `csv` are processed. */
  predicate IsCsvName(name: string)
  {
    FileParts(name).1 == Some("csv")
  }

  /** The last `.` of `a.b` is the one after `a` when `b` holds none. */
  lemma {:induction false} LastDotAfter(a: string, b: string)
    requires '.' !in b
    ensures LastDot(a + "." + b) == Some(|a|)
    decreases |b|
  {
    var s := a + "." + b;
    if b != [] {
      var b' := b[..|b| - 1];
      assert s[..|s| - 1] == a + "." + b';
      assert s[|s| - 1] == b[|b| - 1];
      LastDotAfter(a, b');
    }
  }

  /** A named CSV file: the stem is the text before `.csv`, and is the timeframe, case kept. */
  lemma CsvNameParts(stem: string)
    requires stem != []
    ensures IsCsvName(stem + ".csv") && FileParts(stem + ".csv").0 == stem
  {
    LastDotAfter(stem, "csv");
    var name := stem + ".csv";
    assert name == stem + "." + "csv";
    assert name[..|stem|] == stem && name[|stem| + 1..] == "csv";
    assert name != "..";
  }

  /** Upper-case extensions and hidden files such as `.csv` are not processed. */
  lemma NotCsvNames()
    ensures !IsCsvName("D1.CSV") && !IsCsvName(".csv")
  {
    LastDotAfter("D1", "CSV");
    assert "D1.CSV" == "D1" + "." + "CSV";
    assert "D1.CSV"[3..] == "CSV";
    LastDotAfter("", "csv");
    assert ".csv" == "" + "." + "csv";
  }

  // ---------------------------------------------------------------------------
  // The folder

  datatype DirEntry = EntryUnreadable | Entry(fileName: string, file: CsvFile)

  /** A path as the command finds it on disk. */
  datatype FolderPath =
    | Missing
    | NotADirectory
    | Directory(name: Option<string>, listing: Option<seq<DirEntry>>)

  datatype FolderError =
    | FolderMissing
    | NotDirectory
    | InvalidFolderName
    | ReadDirFailed
    | EntryFailed
    | FileFailed(timeframe: string, error: CsvError)
    | NoCsvFiles

  datatype ProcessResult = ProcessResult(symbol: string, timeframesProcessed: seq<string>, totalCandles: nat, message: string)

  /** The entry loop: timeframes and candles so far, or the error that ended it. */
  datatype ScanState = Scanning(timeframes: seq<string>, total: nat) | Failed(error: FolderError)

  function EntryStep(st: ScanState, e: DirEntry): ScanState
  {
    if st.Failed? then st
    else match e
      case EntryUnreadable => Failed(EntryFailed)
      case Entry(name, file) =>
        if !IsCsvName(name) then st
        else match CsvVerdict(file)
          case Ok(count) => Scanning(st.timeframes + [FileParts(name).0], st.total + count)
          case Err(err) => Failed(FileFailed(FileParts(name).0, err))
  }

  function Scan(entries: seq<DirEntry>): ScanState
  {
    if entries == [] then Scanning([], 0)
    else EntryStep(Scan(entries[..|entries| - 1]), entries[|entries| - 1])
  }

  /** The success message, with the plural rule for `timeframe`. */
  function SuccessMessage(count: nat, total: nat): string
  {
    "Successfully processed " + NatToString(count) + " timeframe" + (if count == 1 then "" else "s")
      + " with " + NatToString(total) + " total candles"
  }

  /** `process_chart_folder`. */
  function ChartFolderRun(path: FolderPath): Result<ProcessResult, FolderError>
  {
    match path
    case Missing => Err(FolderMissing)
    case NotADirectory => Err(NotDirectory)
    case Directory(name, listing) =>
      if name.None? then Err(InvalidFolderName)
      else if listing.None? then Err(ReadDirFailed)
      else match Scan(listing.value)
        case Failed(e) => Err(e)
        case Scanning(timeframes, total) =>
          if timeframes == [] then Err(NoCsvFiles)
          else Ok(ProcessResult(name.value, timeframes, total, SuccessMessage(|timeframes|, total)))
  }

  /** An entry the loop passes: readable, and a valid file if it is a CSV one. */
  predicate EntryOk(e: DirEntry)
  {
    e.Entry? && (IsCsvName(e.fileName) ==> CsvVerdict(e.file).Ok?)
  }

  /** The error a bad entry ends the loop with. */
  function EntryError(e: DirEntry): FolderError
    requires !EntryOk(e)
  {
    if e.EntryUnreadable? then EntryFailed
    else FileFailed(FileParts(e.fileName).0, CsvVerdict(e.file).error)
  }

  predicate IsCsvEntry(e: DirEntry)
  {
    e.Entry? && IsCsvName(e.fileName)
  }

  /** The timeframe a CSV entry stands for. */
  function StemOf(e: DirEntry): seq<string>
  {
    if IsCsvEntry(e) then [FileParts(e.fileName).0] else []
  }

  /** The data rows a CSV entry holds. */
  function RowsOf(e: DirEntry): nat
  {
    if IsCsvEntry(e) && e.file.Records? then |e.file.rows| else 0
  }

  /** The stems of the CSV entries, in listing order. */
  function CsvStems(entries: seq<DirEntry>): seq<string>
  {
    if entries == [] then [] else StemOf(entries[0]) + CsvStems(entries[1..])
  }

  /** The data rows of the CSV entries, summed. */
  function CsvRows(entries: seq<DirEntry>): nat
  {
    if entries == [] then 0 else RowsOf(entries[0]) + CsvRows(entries[1..])
  }

  lemma {:induction false} CsvStemsAppend(a: seq<DirEntry>, e: DirEntry)
    ensures CsvStems(a + [e]) == CsvStems(a) + StemOf(e)
    decreases |a|
  {
    if a == [] {
      assert a + [e] == [e] && [e][1..] == [];
    } else {
      assert (a + [e])[1..] == a[1..] + [e];
      CsvStemsAppend(a[1..], e);
    }
  }

  lemma {:induction false} CsvRowsAppend(a: seq<DirEntry>, e: DirEntry)
    ensures CsvRows(a + [e]) == CsvRows(a) + RowsOf(e)
    decreases |a|
  {
    if a == [] {
      assert a + [e] == [e] && [e][1..] == [];
    } else {
      assert (a + [e])[1..] == a[1..] + [e];
      CsvRowsAppend(a[1..], e);
    }
  }

  /**
   * When every entry passes, the loop ends with the CSV stems in listing
   * order and the sum of their data rows.
   */
  lemma {:induction false} ScanAllOk(entries: seq<DirEntry>)
    requires forall e :: e in entries ==> EntryOk(e)
    ensures Scan(entries) == Scanning(CsvStems(entries), CsvRows(entries))
    decreases |entries|
  {
    if entries != [] {
      var prefix := entries[..|entries| - 1];
      var e := entries[|entries| - 1];
      assert entries == prefix + [e];
      assert forall x :: x in prefix ==> x in entries;
      ScanAllOk(prefix);
      ScanOkStep(prefix, e);
    }
  }

  lemma ScanOkStep(prefix: seq<DirEntry>, e: DirEntry)
    requires Scan(prefix) == Scanning(CsvStems(prefix), CsvRows(prefix)) && EntryOk(e)
    ensures Scan(prefix + [e]) == Scanning(CsvStems(prefix + [e]), CsvRows(prefix + [e]))
  {
    assert (prefix + [e])[..|prefix|] == prefix;
    EntryStepOk(CsvStems(prefix), CsvRows(prefix), e);
    CsvStemsAppend(prefix, e);
    CsvRowsAppend(prefix, e);
  }

  lemma EntryStepOk(timeframes: seq<string>, total: nat, e: DirEntry)
    requires EntryOk(e)
    ensures EntryStep(Scanning(timeframes, total), e) == Scanning(timeframes + StemOf(e), total + RowsOf(e))
  {
    if IsCsvName(e.fileName) {
      CsvVerdictFacts(e.file);
    }
  }

  /** Once the loop has failed it keeps its error. */
  lemma {:induction false} ScanStaysFailed(entries: seq<DirEntry>, k: nat)
    requires k <= |entries| && Scan(entries[..k]).Failed?
    ensures Scan(entries) == Scan(entries[..k])
    decreases |entries| - k
  {
    if k < |entries| {
      assert entries[..k + 1][..k] == entries[..k];
      ScanStaysFailed(entries, k + 1);
    } else {
      assert entries[..k] == entries;
    }
  }

  /**
   * Fail fast: the first entry that does not pass decides the error, and no
   * later entry is examined.
   */
  lemma ScanFirstFailure(entries: seq<DirEntry>, k: nat)
    requires k < |entries| && !EntryOk(entries[k])
    requires forall i :: 0 <= i < k ==> EntryOk(entries[i])
    ensures Scan(entries) == Failed(EntryError(entries[k]))
  {
    assert entries[..k + 1][..k] == entries[..k];
    assert forall e :: e in entries[..k] ==> EntryOk(e);
    ScanAllOk(entries[..k]);
    ScanStaysFailed(entries, k + 1);
  }

  /** The loop fails exactly when some entry does not pass. */
  lemma ScanFailsOnlyOnBadEntry(entries: seq<DirEntry>)
    ensures Scan(entries).Failed? <==> exists e :: e in entries && !EntryOk(e)
  {
    if exists e :: e in entries && !EntryOk(e) {
      var e :| e in entries && !EntryOk(e);
      var k :| 0 <= k < |entries| && entries[k] == e;
      while exists j :: 0 <= j < k && !EntryOk(entries[j])
        invariant 0 <= k < |entries| && !EntryOk(entries[k])
        decreases k
      {
        var j :| 0 <= j < k && !EntryOk(entries[j]);
        k := j;
      }
      ScanFirstFailure(entries, k);
    } else {
      ScanAllOk(entries);
    }
  }

  /**
   * The command succeeds exactly when the path is a named, listable directory
   * whose entries all pass and which holds at least one CSV file; the symbol
   * is then the folder name as written, the timeframes are the CSV stems in
   * listing order, and the total is the sum of their data rows.
   */
  lemma ChartFolderRunFacts(path: FolderPath)
    ensures var r := ChartFolderRun(path);
      && (r.Ok? <==> path.Directory? && path.name.Some? && path.listing.Some?
                     && (forall e :: e in path.listing.value ==> EntryOk(e))
                     && CsvStems(path.listing.value) != [])
      && (r.Ok? ==> r.value.symbol == path.name.value
                    && r.value.timeframesProcessed == CsvStems(path.listing.value)
                    && r.value.totalCandles == CsvRows(path.listing.value))
  {
    if path.Directory? && path.name.Some? && path.listing.Some? {
      var entries := path.listing.value;
      ScanFailsOnlyOnBadEntry(entries);
      if forall e :: e in entries ==> EntryOk(e) {
        ScanAllOk(entries);
      }
    }
  }

  /** `process_chart_folder`: the checks on the path, then the entry loop with its early returns. */
  method ProcessChartFolder(path: FolderPath) returns (r: Result<ProcessResult, FolderError>)
    ensures r == ChartFolderRun(path)
  {
    if path.Missing? {
      return Err(FolderMissing);
    }
    if path.NotADirectory? {
      return Err(NotDirectory);
    }
    if path.name.None? {
      return Err(InvalidFolderName);
    }
    if path.listing.None? {
      return Err(ReadDirFailed);
    }
    var entries := path.listing.value;
    var timeframes: seq<string> := [];
    var total := 0;
    for i := 0 to |entries|
      invariant Scan(entries[..i]) == Scanning(timeframes, total)
    {
      assert entries[..i + 1][..i] == entries[..i];
      var entry := entries[i];
      if entry.EntryUnreadable? {
        ScanStaysFailed(entries, i + 1);
        return Err(EntryFailed);
      }
      var parts := FileParts(entry.fileName);
      if parts.1 == Some("csv") {
        var verdict := CountAndValidateCsv(entry.file);
        if verdict.Err? {
          ScanStaysFailed(entries, i + 1);
          return Err(FileFailed(parts.0, verdict.error));
        }
        total := total + verdict.value;
        timeframes := timeframes + [parts.0];
      }
    }
    assert entries[..|entries|] == entries;
    if timeframes == [] {
      return Err(NoCsvFiles);
    }
    return Ok(ProcessResult(path.name.value, timeframes, total, SuccessMessage(|timeframes|, total)));
  }
}
