# TraderAssist data import and front-end stores, modelled in Dafny

TraderAssist is a desktop trading-chart application with a Rust (Tauri) back
end and a Svelte front end. This project models its core:

- **GitHub import** (`github.rs`) turns a repository of per-timeframe CSV
  files into stored symbol records. It covers URL parsing, the timeframe
  vocabulary, line counting, per-folder staging, the stable rank sort, and
  the single and multi-symbol command modes with their batch loop.
- **Yahoo Finance import** (`yfinance.rs`) covers the same record building
  for downloaded quotes. That includes name validation, the date to epoch
  conversion, the alignment of quote arrays into candles, the CSV text that
  gets staged, and the per-timeframe loop with its cleanup rules.
- **Local folder import** (`commands.rs`) covers the scan of a chart folder
  and the per-file row validator. It includes the `i64` and `f64` text
  grammars the first data row must match.
- **Front-end logic** (`keyboardHandler.ts` and the settings, shortcuts,
  chart and modal stores) covers key normalisation, `cmd`/`ctrl`-equivalent
  matching, first-match dispatch, the handler map, and each store's state
  transitions.

The application's data directory is the value `Records.AppData`. It maps
each stored symbol to its record (`symbols/S.json`) and holds the set of
staging directories `temp/N` that exist. The import commands map the
directory before a run to the directory after it. Network replies become
maps from request to reply, and a missing key is a failed request. Each
imperative loop in the source is a Dafny `method` with a `while` loop. It is
proved equal to a recursive specification function, and the properties
below are lemmas about that function. The keyboard handler and the settings
store update fields in place, so they are classes.

Modules, one per file: `Wrappers`, `Ascii` (string helpers, used as Rust's
and JavaScript's string methods), `Records`, `Timeframes`, `GitHub`,
`CivilDate`, `YFinance`, `NumberSyntax`, `LocalFolder`, `Keyboard`,
`Shortcuts`, `Settings`, `Chart`, `Modal`.

## Model

| member | source | states |
|---|---|---|
| Ascii.ToUpper | src-tauri/src/upload_function/github.rs:133 | `to_uppercase` (ASCII): same length, each letter upper-cased, every other character unchanged |
| Ascii.ToUpperIdempotent | src-tauri/src/upload_function/github.rs:194 | upper-casing an upper-cased name changes nothing, so names upper-cased twice along the import path are stable |
| Ascii.ToLower | src/utils/keyboardHandler.ts:60 | `toLowerCase` (ASCII): same length, each letter lower-cased, every other character unchanged |
| Ascii.TrimEndMatches | src-tauri/src/upload_function/github.rs:35 | `trim_end_matches`: the result is a prefix of the input that no longer ends with the pattern, what is cut off is whole copies of the pattern, and an input not ending with the pattern comes back unchanged |
| Ascii.TrimStartMatches | src-tauri/src/upload_function/github.rs:39-41 | `trim_start_matches`: the result is a suffix of the input that no longer starts with the pattern, what is cut off is whole copies of the pattern, and an input not starting with the pattern comes back unchanged |
| Ascii.RepeatsAppend | src-tauri/src/upload_function/github.rs:35 | whole copies of the pattern followed by one more copy are still whole copies |
| Ascii.SplitJoin | src-tauri/src/upload_function/github.rs:42 | `split` inverts joining: separator-free pieces joined with the separator split back into exactly those pieces |
| Ascii.SplitPiecesFree | src-tauri/src/upload_function/github.rs:42 | no piece of a split contains the separator |
| Ascii.SplitTerminated | src-tauri/src/upload_function/github.rs:153 | separator-free lines, each followed by the separator, split back into those lines and one trailing empty piece |
| Ascii.SplitTerminatedThen | src-tauri/src/upload_function/github.rs:153 | separator-free lines, each followed by the separator, split off unchanged in front of the pieces of whatever follows them |
| Ascii.NatToStringValue | src-tauri/src/upload_function/yfinance.rs:187 | the decimal text of a number is all digits and reads back as that number |
| Records.TotalCandles | src-tauri/src/upload_function/github.rs:222 | the running candle total is 0 for no timeframes and at least each timeframe's count |
| Records.TotalCandlesAppend | src-tauri/src/upload_function/github.rs:222 | the total is additive over concatenation, so adding one count per pushed timeframe yields the total of the list |
| Timeframes.IsValidTimeframe | src-tauri/src/upload_function/github.rs:131-149 | valid exactly when the upper-cased name is one of the 15 codes M1 … MN1 |
| Timeframes.GithubDisplay | src-tauri/src/upload_function/github.rs:54-73 | each of the 15 codes gets a label different from the code; any other text is passed through unchanged |
| Timeframes.YFinanceDisplay | src-tauri/src/upload_function/yfinance.rs:45-59 | the Yahoo table gives the GitHub label for its 10 codes and passes every other text through, including the 5 codes it lacks |
| Timeframes.YFinanceInterval | src-tauri/src/upload_function/yfinance.rs:29-43 | an interval exists exactly for the 10 codes M1, M2, M5, M15, M30, H1, H4, D1, W1, MN1 |
| Timeframes.YFinanceIntervalInjective | src-tauri/src/upload_function/yfinance.rs:29-43 | no two codes map to the same Yahoo interval |
| Timeframes.YFinanceCodesAreGithubCodes | src-tauri/src/upload_function/yfinance.rs:283-285 | the Yahoo order holds exactly the GitHub codes other than M3, M4, M10, H2 and H3 |
| Timeframes.YFinanceOrderIsGithubSubsequence | src-tauri/src/upload_function/github.rs:238-241 | the Yahoo order lists its codes in the same relative order as the GitHub order |
| Timeframes.Rank | src-tauri/src/upload_function/github.rs:242-243 | `position(..).unwrap_or(999)`: a rank inside the list points at the name; otherwise the rank is 999 and the name is absent |
| Timeframes.RankIsFirstPosition | src-tauri/src/upload_function/github.rs:242 | the rank is at most every position holding the name, so it is the first one |
| Timeframes.SortByRank | src-tauri/src/upload_function/github.rs:237-245 | the sort returns a permutation of its input (same length, same multiset) |
| Timeframes.InsertByRank | src-tauri/src/upload_function/github.rs:237-245 | insertion adds exactly the one element |
| Timeframes.InsertByRankSorted | src-tauri/src/upload_function/github.rs:237-245 | inserting into a rank-sorted list keeps it sorted |
| Timeframes.SortByRankSorted | src-tauri/src/upload_function/github.rs:237-245 | the result is ordered by non-decreasing rank |
| Timeframes.WithRankInsert | src-tauri/src/upload_function/github.rs:237-245 | insertion puts the new element ahead of the elements of the same rank already in the list |
| Timeframes.SortByRankStable | src-tauri/src/upload_function/github.rs:237-245 | `sort_by` is stable: the elements of each rank keep their input order |
| Timeframes.SortedByRankUnique | src-tauri/src/upload_function/github.rs:237-245 | two rank-sorted lists with the same elements of each rank, in the same order, are equal |
| Timeframes.SortByRankIsTheStableSort | src-tauri/src/upload_function/github.rs:237-245 | any sorted list that keeps each rank's elements in input order is the result of the sort, so the model equals Rust's stable sort |
| Timeframes.SortByRankOfSorted | src-tauri/src/upload_function/github.rs:237-245 | sorting an already sorted list changes nothing |
| Timeframes.KnownBeforeUnknown | src-tauri/src/upload_function/github.rs:242-244 | after sorting, every listed code comes before every unlisted name (rank 999) |
| Timeframes.TotalCandlesSort | src-tauri/src/upload_function/github.rs:237-252 | sorting does not change the candle total stored beside the timeframes |
| Timeframes.TotalCandlesInsert | src-tauri/src/upload_function/github.rs:237-252 | inserting a timeframe adds exactly its count to the total |
| GitHub.ParseGithubUrl | src-tauri/src/upload_function/github.rs:34-52 | an error exactly when the stripped path has no `/`; otherwise owner and repo are slash-free, the path starts with `owner/repo`, and the path ends or has a `/` right after it, so they are the whole first two segments |
| GitHub.ParsePathSegments | src-tauri/src/upload_function/github.rs:34-52 | conversely, a stripped path `owner/repo` followed by nothing or by `/…` parses to exactly that owner and repo, whichever of the `https://`, `http://` or bare `github.com/` forms it came from |
| GitHub.ParseComposedUrl | src-tauri/src/upload_function/github.rs:34-52 | `https://github.com/OWNER/REPO` followed by any further path parses back to (OWNER, REPO) |
| GitHub.ParseIgnoresTrailingSlashes | src-tauri/src/upload_function/github.rs:35 | appending any number of `/` to a URL does not change the parse |
| GitHub.TrimEndSlashes | src-tauri/src/upload_function/github.rs:35 | trimming trailing `/` forgets how many there were |
| GitHub.SplitPrefix | src-tauri/src/upload_function/github.rs:42-51 | the first two segments, joined by the separator, start the split text, which ends or continues with a separator right after them |
| GitHub.SplitFirst | src-tauri/src/upload_function/github.rs:42-51 | the first segment starts the split text, which ends or continues with a separator right after it |
| GitHub.CountNonBlank | src-tauri/src/upload_function/github.rs:154-155 | the number of lines that are not blank after trimming is at most the number of lines |
| GitHub.CountCsvLines | src-tauri/src/upload_function/github.rs:151-157 | `saturating_sub(1)` of the non-blank lines: 0 exactly when at most one line is non-blank, otherwise one less than the non-blank lines; never more than the line count |
| GitHub.CountCsvLinesAfterHeader | src-tauri/src/upload_function/github.rs:151-157 | with a non-blank header line, the count is exactly the number of non-blank body lines |
| GitHub.CountCsvLinesAfterBlankLines | src-tauri/src/upload_function/github.rs:151-157 | blank lines before the first non-blank line are passed over: that line is the one not counted, and the count is exactly the non-blank lines after it |
| GitHub.CountCsvLinesAllBlank | src-tauri/src/upload_function/github.rs:151-157 | content whose every line is blank counts 0 |
| GitHub.CountNonBlankAppend | src-tauri/src/upload_function/github.rs:153-155 | the non-blank count of two runs of lines is the sum of their counts |
| GitHub.CountNonBlankAllBlank | src-tauri/src/upload_function/github.rs:153-155 | lines that are all blank count 0 |
| GitHub.CountCsvLinesHeaderOnly | src-tauri/src/upload_function/github.rs:151-157 | empty content or a single line counts 0 |
| GitHub.CsvEntries | src-tauri/src/upload_function/github.rs:169-172 | keeps exactly the listing entries of type `file` whose upper-cased name ends in `.CSV` |
| GitHub.StagedTimeframe | src-tauri/src/upload_function/github.rs:190-230 | a file is staged exactly when its trimmed, upper-cased name is a valid code, it has a download URL and the download succeeds |
| GitHub.CollectedFacts | src-tauri/src/upload_function/github.rs:189-230 | at most one staged timeframe per CSV entry; each has a valid code, its display label and the path `temp/NAME/CODE.csv` |
| GitHub.CollectTimeframes | src-tauri/src/upload_function/github.rs:186-230 | the download loop builds the staged list and its running candle total |
| GitHub.FolderRunFacts | src-tauri/src/upload_function/github.rs:159-260 | the run succeeds exactly when `FolderSucceeds` holds: the listing is returned, it lists CSV files and one of them downloads with a known code; otherwise the error is the listing failure, no CSV files, or nothing downloaded, in that order; success stores an upper-cased, well-formed record with rank-sorted staged timeframes and removes the staging directory; failure stores nothing; the staging directory survives only a failure after it was created; other staging directories are untouched |
| GitHub.FolderRunOrder | src-tauri/src/upload_function/github.rs:237-245 | the stored timeframes are a permutation of the downloaded ones, and each rank's timeframes keep their download order |
| GitHub.SortedRecordFacts | src-tauri/src/upload_function/github.rs:237-252 | the record built from the staged list is well formed, sorted and holds only staged timeframes |
| GitHub.SavedPathsPointIntoRemovedDir | src-tauri/src/upload_function/github.rs:206-257 | on success every saved `file_path` lies under `temp/NAME/`, a directory that same run removes |
| GitHub.ProcessSymbolFolder | src-tauri/src/upload_function/github.rs:159-260 | `process_symbol_folder` computes the folder specification |
| GitHub.DirEntries | src-tauri/src/upload_function/github.rs:317-320 | keeps exactly the listing entries of type `dir` |
| GitHub.BatchStepInvariant | src-tauri/src/upload_function/github.rs:326-353 | one folder of the batch (skipped if stored, saved, or failed and passed over) keeps the batch invariant: earlier records intact, processed symbols new, distinct, stored, unstaged, and `total_timeframes` their timeframe sum |
| GitHub.BatchRunInvariant | src-tauri/src/upload_function/github.rs:326-353 | the batch invariant holds after any sequence of folders |
| GitHub.BatchSaved | src-tauri/src/upload_function/github.rs:345-348 | recording a newly saved symbol keeps the invariant and adds its timeframe count |
| GitHub.BatchFailed | src-tauri/src/upload_function/github.rs:349-351 | a failed folder leaves the invariant intact |
| GitHub.SumTimeframesUpdate | src-tauri/src/upload_function/github.rs:347 | storing a symbol outside the processed list does not change their timeframe sum |
| GitHub.PostOfBatch | src-tauri/src/upload_function/github.rs:355-380 | a batch with processed symbols meets the command postcondition as a success; an empty one meets it as a failure |
| GitHub.EffectiveBranch | src-tauri/src/upload_function/github.rs:268-272 | an empty branch becomes `main`; any other branch is kept |
| GitHub.TargetSymbolUpper | src-tauri/src/upload_function/github.rs:280-283 | the symbol the single and named modes check is upper case |
| GitHub.SingleFolderFacts | src-tauri/src/upload_function/github.rs:278-312 | single and named-folder modes meet the command postcondition; they succeed exactly when the symbol is not stored and its folder run succeeds, a stored symbol is refused with `AlreadyExists`, and a success reports exactly that one symbol |
| GitHub.AllFoldersFacts | src-tauri/src/upload_function/github.rs:313-358 | the all-folders mode meets the command postcondition, and succeeds exactly when the root listing is returned and some directory in it belongs to a symbol not stored before and its folder run succeeds |
| GitHub.AllFoldersProcessed | src-tauri/src/upload_function/github.rs:313-358 | a success reports exactly the symbols that were not stored before and have a root directory whose folder run succeeds |
| GitHub.DirEntriesMembers | src-tauri/src/upload_function/github.rs:317-320 | the folders are exactly the listing's entries of type `dir` |
| GitHub.BatchRunProcessed | src-tauri/src/upload_function/github.rs:326-353 | after the folder loop, a symbol is processed exactly when it was not stored before the loop and one of its folders' runs succeeds; an earlier skip or failure never keeps a later folder from being saved |
| GitHub.StepProcessed | src-tauri/src/upload_function/github.rs:327-352 | one folder adds its symbol exactly when the symbol was not stored before the loop and the folder's run succeeds; an already stored symbol is skipped |
| GitHub.RepoRunFacts | src-tauri/src/upload_function/github.rs:274-363 | every structure type, including an unknown one, meets the command postcondition; the run succeeds exactly when `RepoSucceeds` (the named symbol is new and its folder succeeds, or in every-folder mode some new folder saves); an unknown structure type without a named symbol fails with `InvalidStructureType` and changes nothing |
| GitHub.GithubRunFacts | src-tauri/src/upload_function/github.rs:262-381 | the whole command keeps records valid, never overwrites or removes a stored record, stores nothing on failure, and on success reports distinct new symbols, now stored without staging, with their timeframe total; it succeeds exactly when the URL parses and `RepoSucceeds` holds for its owner and repository |
| GitHub.ExistingSymbolRefused | src-tauri/src/upload_function/github.rs:285-299 | in single or named mode an already stored symbol is refused before anything is fetched or changed |
| GitHub.RepoRunRefused | src-tauri/src/upload_function/github.rs:383-399 | the existence check refuses a stored target and leaves the directory unchanged |
| GitHub.SecondImportRefused | src-tauri/src/upload_function/github.rs:286-299 | repeating a successful single or named import is refused with "already exists" |
| GitHub.RepoRunStoresTarget | src-tauri/src/upload_function/github.rs:288-312 | a successful single or named import stores the target symbol |
| GitHub.FetchGithubData | src-tauri/src/upload_function/github.rs:262-381 | `fetch_github_data_command` computes the command specification |
| GitHub.FetchOneSymbol | src-tauri/src/upload_function/github.rs:278-312 | the single and named branches compute their specification |
| GitHub.FetchAllSymbols | src-tauri/src/upload_function/github.rs:313-358 | the all-folders branch computes its specification |
| GitHub.RunFolders | src-tauri/src/upload_function/github.rs:326-353 | the folder loop computes the batch fold |
| GitHub.ProcessFolderEntry | src-tauri/src/upload_function/github.rs:327-352 | one loop iteration computes one batch step |
| CivilDate.DaysInMonth | src-tauri/src/upload_function/yfinance.rs:179 | every month has 28 to 31 days |
| CivilDate.LeapDayAccepted | src-tauri/src/upload_function/yfinance.rs:179 | February 29 is a valid date exactly in Gregorian leap years |
| CivilDate.NextDay | src-tauri/src/upload_function/yfinance.rs:182-185 | the next day of a valid date is valid |
| CivilDate.DaysSinceEpochNext | src-tauri/src/upload_function/yfinance.rs:182-185 | the day count grows by exactly one from a date to the next |
| CivilDate.EpochIsDayZero | src-tauri/src/upload_function/yfinance.rs:185 | 1970-01-01 is day 0 |
| CivilDate.DaysSinceEpochMonotone | src-tauri/src/upload_function/yfinance.rs:182-185 | an earlier date has a smaller day count |
| CivilDate.ParseDate | src-tauri/src/upload_function/yfinance.rs:179-180 | an accepted `YYYY-MM-DD` text is a valid calendar date with a four-digit year |
| CivilDate.ParseFormatDate | src-tauri/src/upload_function/yfinance.rs:179-180 | every valid date with a four-digit year, written as `YYYY-MM-DD`, parses back to itself |
| CivilDate.ConvertDateToTimestamp | src-tauri/src/upload_function/yfinance.rs:176-188 | a result exists exactly for an accepted date, and it is the decimal text of that date's epoch seconds at 00:00 UTC |
| CivilDate.EpochSecondsNext | src-tauri/src/upload_function/yfinance.rs:182-185 | consecutive dates are exactly 86400 seconds apart |
| CivilDate.EpochSecondsMonotone | src-tauri/src/upload_function/yfinance.rs:182-185 | the timestamp is strictly increasing in the date |
| CivilDate.ConvertEpochDate | src-tauri/src/upload_function/yfinance.rs:176-188 | `1970-01-01` converts to `0` |
| YFinance.PresentTimestamps | src-tauri/src/upload_function/yfinance.rs:97-102 | `filter_map(as_i64)` keeps at most as many timestamps as the array held |
| YFinance.KeptPositions | src-tauri/src/upload_function/yfinance.rs:138-144 | every kept index is below the timestamp count and has all five quote fields present |
| YFinance.KeptPositionsFacts | src-tauri/src/upload_function/yfinance.rs:138-144 | kept indices are strictly increasing, and every complete index is kept |
| YFinance.Aligned | src-tauri/src/upload_function/yfinance.rs:136-144 | one candle per kept index, in index order, built from that index's timestamp and quote fields |
| YFinance.KeptAll | src-tauri/src/upload_function/yfinance.rs:138-144 | when every index is complete, all of them are kept |
| YFinance.ReadReply | src-tauri/src/upload_function/yfinance.rs:93-104 | indexing the result object by an absent `timestamp` or `indicators` key panics, and a reply holding its arrays is read as the candle loop reads them |
| YFinance.ReadCandlesComplete | src-tauri/src/upload_function/yfinance.rs:136-150 | complete quote arrays yield one candle per timestamp |
| YFinance.AlignCandles | src-tauri/src/upload_function/yfinance.rs:136-150 | the alignment loop yields the aligned candles, an empty-result error, or the out-of-range panic |
| YFinance.CandleFields | src-tauri/src/upload_function/yfinance.rs:167-168 | a candle has six fields, none containing a comma or a newline |
| YFinance.CandleLine | src-tauri/src/upload_function/yfinance.rs:165-169 | a candle line is a single comma-separated line |
| YFinance.CandleLineFields | src-tauri/src/upload_function/yfinance.rs:165-169 | splitting a candle line on commas gives back its six fields |
| YFinance.CsvBodyAppend | src-tauri/src/upload_function/yfinance.rs:164-171 | each written candle appends exactly its line and a newline |
| YFinance.CsvBodyTerminated | src-tauri/src/upload_function/yfinance.rs:164-171 | the body is the candle lines, each ended by a newline |
| YFinance.SplitCsvBody | src-tauri/src/upload_function/yfinance.rs:164-171 | the body splits into exactly the candle lines |
| YFinance.RenderCsvLines | src-tauri/src/upload_function/yfinance.rs:153-174 | the staged file is one header line followed by one line per candle |
| YFinance.CountOfRenderedCsv | src-tauri/src/upload_function/yfinance.rs:153-174 | counting the staged file the GitHub way gives the number of candles, which is the `candle_count` the command records |
| YFinance.SaveCandlesToCsv | src-tauri/src/upload_function/yfinance.rs:153-174 | the writing loop produces the header and candle lines |
| YFinance.ValidateSaveAs | src-tauri/src/upload_function/yfinance.rs:195-204 | accepted exactly when non-empty and every character is a letter, a digit or `_`; the accepted name is upper-cased; an empty name and a bad character give their own errors |
| YFinance.ValidatedNameFacts | src-tauri/src/upload_function/yfinance.rs:195-213 | an accepted name is upper case, validates to itself, and contains no `/`, `\` or `.`, so `symbols/NAME.json` stays inside the directory |
| YFinance.TimeframeLoopFacts | src-tauri/src/upload_function/yfinance.rs:235-273 | the loop runs to the end exactly when every requested code has an interval and no reply panics; then the staged timeframes are exactly `Fetched`, the codes whose reply has candles in request order, each with its label and `temp/NAME/CODE.csv`, and the downloaded list is their names; otherwise it stops on an unsupported code or a panic |
| YFinance.FetchedInfo | src-tauri/src/upload_function/yfinance.rs:249-264 | a code stages at most one timeframe, named by the code, with its label and its `temp/NAME/CODE.csv` |
| YFinance.FetchedNames | src-tauri/src/upload_function/yfinance.rs:235-273 | a code is among the downloaded ones exactly when it is requested and its reply has candles; a failed fetch is skipped |
| YFinance.LoopRunningIff | src-tauri/src/upload_function/yfinance.rs:235-273 | the loop finishes exactly when every requested code has an interval and no reply panics |
| YFinance.LoopFetched | src-tauri/src/upload_function/yfinance.rs:249-271 | a loop that finishes has staged exactly the fetched timeframes, in request order, and downloaded their codes |
| YFinance.StepFetched | src-tauri/src/upload_function/yfinance.rs:249-271 | a step that keeps the loop going appends what that code fetches, or nothing when its fetch fails |
| YFinance.MissingKeyStopsLoop | src-tauri/src/upload_function/yfinance.rs:93-104 | a requested code whose reply lacks `timestamp` or `indicators` stops the loop instead of being skipped |
| YFinance.UnsupportedStopsLoop | src-tauri/src/upload_function/yfinance.rs:236-237 | a requested code without an interval stops the loop, wherever it occurs |
| YFinance.LoopStopsAt | src-tauri/src/upload_function/yfinance.rs:236-237 | once the loop has stopped, later timeframes change nothing |
| YFinance.DownloadTimeframes | src-tauri/src/upload_function/yfinance.rs:235-273 | the per-timeframe loop computes the loop specification |
| YFinance.YahooRecordFacts | src-tauri/src/upload_function/yfinance.rs:282-297 | the stored record is well formed, sorted by the 10-code rank and holds only staged timeframes |
| YFinance.DatedRunFacts | src-tauri/src/upload_function/yfinance.rs:223-302 | after the staging directory exists, failure stores nothing; success stores exactly the new record; the staging directory is kept exactly on a date error, an unsupported code or a panic; the run succeeds exactly when both dates are read, every requested code proceeds and something was staged |
| YFinance.FinishRunFacts | src-tauri/src/upload_function/yfinance.rs:275-302 | after a completed loop the run succeeds exactly when something was staged, and otherwise fails with `NothingDownloaded` and removes the staging directory; a stopped loop fails with its own error; a success saves the sorted record and removes the directory |
| YFinance.SavedRunPost | src-tauri/src/upload_function/yfinance.rs:282-319 | a success reports the name, the staged timeframes' codes in the order they were downloaded and their candle total; the stored record holds a rearrangement of those timeframes that keeps their order within each rank, sorted by rank |
| YFinance.YahooRunOutcome | src-tauri/src/upload_function/yfinance.rs:190-320 | the command succeeds exactly when the name is accepted and not stored, both dates are read, every requested code has an interval and a reply that does not panic, and at least one reply has candles; each earlier failing step gives its own error, and a run that completes the loop fails only with `NothingDownloaded` |
| YFinance.YahooRunFacts | src-tauri/src/upload_function/yfinance.rs:190-320 | the whole command keeps records valid and never overwrites one; a name or existence error changes nothing; a success stores the validated new name with the stably sorted fetched timeframes and reports the fetched codes in request order |
| YFinance.UnsupportedCodeFails | src-tauri/src/upload_function/yfinance.rs:236-237 | a request holding an unsupported code fails as a whole |
| YFinance.FetchYFinanceData | src-tauri/src/upload_function/yfinance.rs:190-320 | `fetch_yfinance_data_command` computes the command specification |
| NumberSyntax.ParseI64 | src-tauri/src/commands.rs:113-116 | an accepted integer is in the signed 64-bit range, its unsigned part is a non-empty run of digits, and a negative value has a leading `-` |
| NumberSyntax.ParseDigits | src-tauri/src/commands.rs:113-116 | a digit run within range parses to its value |
| NumberSyntax.ParseNegativeDigits | src-tauri/src/commands.rs:113-116 | `-` followed by a digit run within range parses to its negation |
| NumberSyntax.ParseIntToString | src-tauri/src/commands.rs:113-116 | every 64-bit integer's decimal text parses back to it |
| NumberSyntax.I64Overflow | src-tauri/src/commands.rs:113-116 | one more than the largest 64-bit integer is refused |
| NumberSyntax.F64CaseInsensitive | src-tauri/src/commands.rs:119-128 | float acceptance ignores letter case |
| NumberSyntax.ScanCaseInsensitive | src-tauri/src/commands.rs:119-128 | the float scanner ignores letter case from every state |
| NumberSyntax.DigitsStay | src-tauri/src/commands.rs:119-128 | extra digits inside a digit run do not change acceptance |
| NumberSyntax.DigitsAccepted | src-tauri/src/commands.rs:119-128 | a run of digits, optionally signed, is accepted as a float |
| NumberSyntax.I64TextIsF64 | src-tauri/src/commands.rs:113-128 | every text accepted as an integer is accepted as a float |
| NumberSyntax.DecimalAccepted | src-tauri/src/commands.rs:119-128 | digits with a decimal point and at least one digit are accepted |
| NumberSyntax.SpecialValuesAccepted | src-tauri/src/commands.rs:119-128 | `inf`, `-Infinity` and `+NaN` are accepted |
| NumberSyntax.ScientificAccepted | src-tauri/src/commands.rs:119-128 | `1.5E-3` is accepted |
| NumberSyntax.PointAloneRefused | src-tauri/src/commands.rs:119-128 | a lone `.` is refused |
| NumberSyntax.ExponentAloneRefused | src-tauri/src/commands.rs:119-128 | no text starting with `e` or `E` is accepted: an exponent needs a mantissa |
| NumberSyntax.EmptyExponentRefused | src-tauri/src/commands.rs:119-128 | digits followed by a bare `e` are refused: an exponent marker needs digits |
| NumberSyntax.LeadingSpaceRefused | src-tauri/src/commands.rs:119-128 | no text starting with whitespace is accepted: surrounding whitespace is not trimmed |
| NumberSyntax.EmptyRefused | src-tauri/src/commands.rs:119-128 | the empty field is refused |
| NumberSyntax.NotSpecialWord | src-tauri/src/commands.rs:119-128 | text starting with a digit, point or sign is not `inf`/`infinity`/`nan` |
| LocalFolder.FirstBadPrice | src-tauri/src/commands.rs:119-128 | finds the first of columns 1–4 that is not a float, or none when all are |
| LocalFolder.RowCheck | src-tauri/src/commands.rs:99-129 | a row passes exactly when it read cleanly, has at least 5 fields and, for the first data row only, matches the integer and float grammars; an error names row `index + 2`, and a number error names the 1-based column that failed |
| LocalFolder.CheckRow | src-tauri/src/commands.rs:99-129 | the per-row checks, in source order, give the row verdict |
| LocalFolder.CheckPrices | src-tauri/src/commands.rs:119-128 | the column loop finds the first bad price column |
| LocalFolder.ValidateRowsOk | src-tauri/src/commands.rs:98-132 | the rows pass exactly when every row passes its check, and the count is then the number of data rows |
| LocalFolder.ValidateRowsFirstError | src-tauri/src/commands.rs:98-132 | the error reported is that of the first failing row |
| LocalFolder.ValidateRowsStop | src-tauri/src/commands.rs:98-132 | once a prefix fails, later rows do not matter |
| LocalFolder.CsvVerdictFacts | src-tauri/src/commands.rs:89-139 | a file is accepted exactly when it opens, has at least one data row and every row passes; the count is the number of data rows; no data rows gives "CSV file is empty" |
| LocalFolder.LaterRowPasses | src-tauri/src/commands.rs:111 | rows after the first are not type-checked |
| LocalFolder.LaterRowsUnchecked | src-tauri/src/commands.rs:110-131 | with a good first row, any later rows of 5 or more fields are counted whatever they hold |
| LocalFolder.CountAndValidateCsv | src-tauri/src/commands.rs:89-139 | `count_and_validate_csv` computes the file verdict |
| LocalFolder.LastDot | src-tauri/src/commands.rs:45 | finds the last `.` of a name, or none |
| LocalFolder.FileParts | src-tauri/src/commands.rs:45-51 | `file_stem`/`extension`: a name with an extension is a non-empty stem, a dot and a dot-free extension; otherwise the stem is the whole name |
| LocalFolder.CsvNameParts | src-tauri/src/commands.rs:45-51 | `STEM.csv` is a CSV entry whose timeframe is `STEM` (not upper-cased) |
| LocalFolder.NotCsvNames | src-tauri/src/commands.rs:46 | the extension test is case-sensitive (`D1.CSV` is skipped), and `.csv` alone has no extension |
| LocalFolder.CsvStemsAppend | src-tauri/src/commands.rs:57 | the timeframe list grows by one stem per CSV entry, in directory order |
| LocalFolder.CsvRowsAppend | src-tauri/src/commands.rs:56 | the candle total grows by each CSV entry's count |
| LocalFolder.ScanAllOk | src-tauri/src/commands.rs:40-65 | when every entry is good, the loop ends with all CSV stems in directory order and the sum of their counts |
| LocalFolder.ScanOkStep | src-tauri/src/commands.rs:40-65 | a good entry extends the loop state by its stem and count |
| LocalFolder.EntryStepOk | src-tauri/src/commands.rs:44-63 | a good entry adds its stem and row count, and nothing for a non-CSV entry |
| LocalFolder.ScanStaysFailed | src-tauri/src/commands.rs:59-61 | after an early return, later entries are not examined |
| LocalFolder.ScanFirstFailure | src-tauri/src/commands.rs:40-65 | the command fails with the error of the first bad entry |
| LocalFolder.ScanFailsOnlyOnBadEntry | src-tauri/src/commands.rs:40-65 | the loop fails exactly when some entry is bad |
| LocalFolder.ChartFolderRunFacts | src-tauri/src/commands.rs:16-87 | success exactly when the path is a readable, named directory whose entries are all good and that holds some CSV file; the result carries the folder name, the stems in directory order and the summed counts |
| LocalFolder.ProcessChartFolder | src-tauri/src/commands.rs:16-87 | `process_chart_folder` computes the folder verdict |
| Keyboard.KeyName | src/utils/keyboardHandler.ts:60-62 | the key is lower-cased, and space and escape become `space` and `esc` |
| Keyboard.NormalizeKey | src/utils/keyboardHandler.ts:48-67 | the push sequence builds the normalised key text |
| Keyboard.ModifiersByPlatform | src/utils/keyboardHandler.ts:52-57 | `ctrl` is emitted only off Mac and `cmd` only on Mac, never both, with at most three modifiers |
| Keyboard.IgnoredModifier | src/utils/keyboardHandler.ts:54-55 | the Control key is ignored on Mac and the Meta key elsewhere |
| Keyboard.PlatformModifierText | src/utils/keyboardHandler.ts:48-67 | with the platform modifier held, the text is `cmd+` or `ctrl+` followed by the rest of the key text, in the fixed order alt, shift, key |
| Keyboard.CanonicalForms | src/utils/keyboardHandler.ts:71-74 | a leading `cmd+` or `ctrl+` becomes `mod+`; any other key is unchanged and does not start with `mod+` |
| Keyboard.MatchesKeyIff | src/utils/keyboardHandler.ts:69-80 | two keys match exactly when they are equal and neither has a platform prefix, or both have one and the rest is equal |
| Keyboard.MatchesKeyEquivalence | src/utils/keyboardHandler.ts:69-80 | matching is reflexive, symmetric and transitive |
| Keyboard.CrossPlatformMatch | src/utils/keyboardHandler.ts:48-80 | the same chord pressed with Control off Mac and with Command on Mac matches |
| Keyboard.FirstMatch | src/utils/keyboardHandler.ts:34-36 | finds the first shortcut with any matching key, or none when no shortcut matches |
| Keyboard.DispatchFacts | src/utils/keyboardHandler.ts:19-46 | ignored exactly when disabled or typing in an editable target; otherwise the first matching shortcut is chosen, and its handler runs only if one is registered for its action |
| Keyboard.UnregisteredActionStillConsumesKey | src/utils/keyboardHandler.ts:38-43 | a matched shortcut whose handler was unregistered still consumes the key and runs nothing |
| Keyboard.KeyboardHandler.constructor | src/utils/keyboardHandler.ts:5-17 | starts with no handlers and the store's shortcuts and enabled flag |
| Keyboard.KeyboardHandler.OnShortcutsChanged | src/utils/keyboardHandler.ts:11-14 | the subscription copies the store's shortcuts and flag and leaves the handlers alone |
| Keyboard.KeyboardHandler.OnKeyDown | src/utils/keyboardHandler.ts:19-46 | a key press is dispatched on the normalised key |
| Keyboard.KeyboardHandler.RegisterAction | src/utils/keyboardHandler.ts:82-84 | registering sets or overwrites that action's handler only |
| Keyboard.KeyboardHandler.UnregisterAction | src/utils/keyboardHandler.ts:86-88 | unregistering removes only that action |
| Keyboard.KeyboardHandler.GetShortcutKeys | src/utils/keyboardHandler.ts:90-93 | the keys of the first shortcut bound to the action, or none |
| Keyboard.KeyboardHandler.Destroy | src/utils/keyboardHandler.ts:95-97 | empties the handler map and keeps the rest |
| Shortcuts.LoadShortcuts | src/stores/shortcutsStore.ts:25-30 | the configured list, enabled, whatever came before |
| Shortcuts.UpdateShortcut | src/stores/shortcutsStore.ts:31-38 | every shortcut with the id gets the new keys; length, order, other fields and other shortcuts are unchanged |
| Shortcuts.UpdateUnknownId | src/stores/shortcutsStore.ts:34-36 | an id no shortcut carries changes nothing |
| Shortcuts.UpdateShortcutTwice | src/stores/shortcutsStore.ts:31-38 | the later update of an id wins |
| Shortcuts.UpdateShortcutCommutes | src/stores/shortcutsStore.ts:31-38 | updates of different ids commute |
| Shortcuts.ToggleEnabled | src/stores/shortcutsStore.ts:39-44 | flips the flag and keeps the list |
| Shortcuts.ToggleTwice | src/stores/shortcutsStore.ts:39-44 | toggling twice restores the state |
| Shortcuts.FindByAction | src/stores/shortcutsStore.ts:45-51 | finds the first shortcut bound to the action, or none when no shortcut is |
| Shortcuts.FindAfterUpdate | src/stores/shortcutsStore.ts:31-51 | after an update, the lookup finds the same shortcut, carrying the new keys if its id was updated |
| Chart.FirstTimeframe | src/stores/chartStore.ts:24 | `timeframes[0] \|\| null`: the first timeframe, or none when the list is empty or starts with the empty string |
| Chart.SetSymbol | src/stores/chartStore.ts:19-26 | sets the symbol and the list, and selects the list's first timeframe |
| Chart.SelectionOffered | src/stores/chartStore.ts:19-26 | the timeframe `setSymbol` selects is one of those offered |
| Chart.SetSymbolForgets | src/stores/chartStore.ts:19-26 | the result of `setSymbol` does not depend on the earlier state |
| Chart.SetTimeframe | src/stores/chartStore.ts:27-32 | changes only the selected timeframe |
| Chart.SetTimeframeUnchecked | src/stores/chartStore.ts:27-32 | a timeframe outside the offered list is accepted |
| Chart.Reset | src/stores/chartStore.ts:33-39 | returns the initial state |
| Chart.ResetIdempotent | src/stores/chartStore.ts:33-39 | resetting twice equals resetting once |
| Modal.Open | src/stores/modalStore.ts:20-27 | open, with the given title, component and props, or empty props when none are given |
| Modal.OpenForgets | src/stores/modalStore.ts:20-27 | the result of `open` does not depend on the earlier state |
| Modal.OpenDefaultProps | src/stores/modalStore.ts:20 | omitting the props is the same as passing `{}` |
| Modal.Close | src/stores/modalStore.ts:28-35 | returns the closed initial state |
| Modal.CloseRestores | src/stores/modalStore.ts:28-35 | closing is idempotent, and open then close returns to the initial state |
| Settings.Merge | src/stores/settingsStore.ts:70-83 | saved keys override, missing keys take the default, and no other key appears |
| Settings.LoadedSection | src/stores/settingsStore.ts:70-83 | a loaded section has every default key, and a missing row gives exactly the defaults |
| Settings.Loaded | src/stores/settingsStore.ts:70-83 | each section is loaded independently from its own row |
| Settings.LoadedComplete | src/stores/settingsStore.ts:70-83 | loading always gives every section all its default keys |
| Settings.LoadEmpty | src/stores/settingsStore.ts:33-54 | an empty table loads exactly `defaultSettings` |
| Settings.MergeComplete | src/stores/settingsStore.ts:70-83 | merging the defaults under a section that already has every default key changes nothing |
| Settings.UpdateSetting | src/stores/settingsStore.ts:94-134 | that key of that section takes the value; every other key and every other section is unchanged |
| Settings.ReloadAfterWrite | src/stores/settingsStore.ts:94-134 | after a section is written back, loading the table again gives the updated state |
| Settings.SectionAfterWrite | src/stores/settingsStore.ts:94-134 | writing one section's row changes what loading gives for that section only |
| Settings.ResetTableRows | src/stores/settingsStore.ts:136-141 | the rows `reset` reached hold their defaults, in the order general, trade, appearance; the rows after a rejected write and every other row are as they were |
| Settings.ReloadAfterReset | src/stores/settingsStore.ts:136-141 | after `reset`, loading gives the defaults for each section it wrote and the old loaded section for the others; with all three writes accepted, exactly the defaults |
| Settings.SettingsStore.constructor | src/stores/settingsStore.ts:57-59 | the store starts at the defaults, not yet loaded |
| Settings.SettingsStore.Init | src/stores/settingsStore.ts:64-92 | a no-op once loaded; otherwise the merged table when the rows are read; the defaults marked loaded when the query fails, because `getAllSettings` then answers with no rows, and from then on the state is not promised to mirror the table unless the table itself loads the defaults; the defaults with the flag left unset, so a later call retries, when the database cannot be opened |
| Settings.SettingsStore.Update | src/stores/settingsStore.ts:94-134 | one key changes, the whole section is written under its name, and a state that mirrored the table still equals what the table loads |
| Settings.SettingsStore.UpdateGeneral | src/stores/settingsStore.ts:94-106 | updates one general key and writes the `general` row |
| Settings.SettingsStore.UpdateTrade | src/stores/settingsStore.ts:108-120 | updates one trade key and writes the `trade` row |
| Settings.SettingsStore.UpdateAppearance | src/stores/settingsStore.ts:122-134 | updates one appearance key and writes the `appearance` row |
| Settings.SettingsStore.Reset | src/stores/settingsStore.ts:136-141 | the state becomes the defaults; the rows are written in order until one is rejected (`setSetting` rethrows, src/db/settingsDb.ts:47-65), which `reset` reports; the state mirrors the table afterwards exactly when the table loads the defaults, which holds whenever all three writes were accepted |

## Left out

- Network: the GitHub contents listing, the raw CSV download and the Yahoo chart request become maps from request to reply, and a missing entry is a failed request. HTTP status codes, headers, the User-Agent and the JSON decoding of replies are not modelled.
- JSON: a Yahoo reply is given as its timestamp and quote arrays, with non-numeric entries as `None`. A `timestamp` value or a quote value that is not an array is a failed request. A result object without the `timestamp` or `indicators` key is the reply `KeyAbsent`, because indexing a `serde_json` map by an absent key panics.
- Clock: `chrono::Utc::now().to_rfc3339()` is the parameter `now`.
- Filesystem: `app_data_dir`, directory creation, file creation and write failures are assumed to succeed. The staged CSV files' contents are not tracked, only whether the staging directory exists. `save_symbol_data` stores the record under its symbol, and its JSON text is not modelled.
- `src-tauri/src/upload_function/local_upload.rs` is not part of this model. Neither are listing, renaming or deleting stored symbols.
- YFinance.Candle: prices are opaque texts. The `f64` values, their rounding and their `Display` text are not modelled.
- NumberSyntax.IsF64Text: models only which texts Rust's `f64` parser accepts, not the value it rounds to.
- CivilDate.ParseDate: accepts exactly `YYYY-MM-DD` with four-digit years, two-digit months and two-digit days. chrono's `%Y-%m-%d` also accepts shorter fields and signed or longer years, which are refused here.
- Case mapping and `is_alphanumeric` are ASCII only. Whitespace for `trim` is Unicode's `White_Space` set, as Rust's `char::is_whitespace` defines it. Non-ASCII letters and Unicode case mapping are not modelled, and neither are file names that are not valid UTF-8.
- The `csv` crate: each record is given as its list of fields or as a read error. Quoting, headers and the `UnequalLengths` error are left to the crate.
- A panic while aligning quote arrays shorter than the timestamp list is modelled as the outcome `IndexOutOfRange`, and a panic on an absent key as `MissingKey`. Both end the command (`Panicked`). Unwinding is not modelled.
- Message texts: only the local folder's success message, with its pluralisation, is modelled. Other error and success messages are represented by error constructors and result fields.
- Logging (`println!`, `console.*`) and async/await scheduling are not modelled.
- Settings.SettingsStore: `settingsDb` is the `table` field. How `getAllSettings` goes (src/db/settingsDb.ts:67-84) is the parameter `read`: the database cannot be opened, the query or a row's JSON fails and it answers with no rows, or it gives the rows. The fire-and-forget `setSetting` inside `update` is modelled as a write that always succeeds. How many of `reset`'s three awaited writes the database accepts is the parameter `accepted` of `Reset`.
- Settings.Value: setting values are flags, numbers or texts. The literal-union types of the TypeScript interfaces are not enforced; only the key must be one of the section's.
- Modal.Props: the component and the prop values are represented as strings.
- DOM and Svelte plumbing: `addEventListener`, `preventDefault`, `navigator.platform` (the parameter `isMac`), store subscription and running a handler's body are not modelled. A dispatch outcome names the handler that runs.
