/**
 * The GitHub importer (`upload_function/github.rs`): repository URL parsing,
 * CSV line counting, the per-folder download of one symbol's timeframe files,
 * and the `fetch_github_data_command` entry point in its three modes
 * (single-symbol repository, one folder of a multi-symbol repository, every
 * folder of a multi-symbol repository).
 *
 * The network is a value: `Remote` maps each contents query to the listing it
 * returns and each download URL to the body it returns; a key that is absent
 * is a request that failed. The data directory is an `AppData` value that
 * each operation takes and returns.
 */
module GitHub {
  import opened Wrappers
  import opened Ascii
  import opened Records
  import opened Timeframes

  datatype GitHubRequest = GitHubRequest(repoUrl: string, branch: string, structureType: string, symbolName: Option<string>)

  datatype GitHubResult = GitHubResult(symbolsProcessed: seq<string>, totalTimeframes: nat)

  /** One entry of a contents listing; `contentType` is the API's `type` field. */
  datatype GitHubContent = GitHubContent(name: string, path: string, contentType: string, downloadUrl: Option<string>)

  /** The parameters of one contents request. */
  datatype ListingQuery = ListingQuery(owner: string, repo: string, path: string, branch: string)

  datatype Remote = Remote(listings: map<ListingQuery, seq<GitHubContent>>, downloads: map<string, string>)

  datatype GitHubError =
    | InvalidUrl
    | ListingFailed
    | NoCsvFiles(path: string)
    | NothingDownloaded
    | AlreadyExists(symbol: string)
    | NoSymbolFolders
    | NoSymbolsDownloaded
    | InvalidStructureType

  // ---------------------------------------------------------------------------
  // Repository URL

  /** The text left once trailing slashes and the scheme/host prefixes are trimmed. */
  function UrlPath(url: string): string
  {
    TrimStartMatches(TrimStartMatches(TrimStartMatches(TrimEndMatches(url, "/"), "https://"), "http://"), "github.com/")
  }

  /**
   * `parse_github_url`: the first two '/'-separated segments of the trimmed
   * URL are the owner and the repository; fewer than two segments is an error.
   */
  function ParseGithubUrl(url: string): (r: Result<(string, string), GitHubError>)
    ensures r.Err? <==> '/' !in UrlPath(url)
    ensures r.Err? ==> r.error == InvalidUrl
    ensures r.Ok? ==> '/' !in r.value.0 && '/' !in r.value.1
    ensures r.Ok? ==> StartsWith(UrlPath(url), r.value.0 + "/" + r.value.1)
    ensures r.Ok? ==> var n := |r.value.0| + 1 + |r.value.1|; n == |UrlPath(url)| || UrlPath(url)[n] == '/'
  {
    var parts := Split(UrlPath(url), '/');
    SplitCount(UrlPath(url), '/');
    SplitPiecesFree(UrlPath(url), '/');
    if |parts| < 2 then Err(InvalidUrl)
    else
      SplitPrefix(UrlPath(url), '/');
      Ok((parts[0], parts[1]))
  }

  /**
   * Conversely, the owner and the repository are exactly the first two
   * segments of the trimmed URL, whatever follows them.
   */
  lemma ParsePathSegments(url: string, owner: string, repo: string, rest: string)
    requires '/' !in owner && '/' !in repo && (rest == "" || rest[0] == '/')
    requires UrlPath(url) == owner + "/" + (repo + rest)
    ensures ParseGithubUrl(url) == Ok((owner, repo))
  {
    ComposedSplit(owner, repo, rest);
  }

  /**
   * The first two pieces of a split, with the separator between them, begin
   * the text, and the text ends or has a separator right after them.
   */
  lemma {:induction false} SplitPrefix(s: string, sep: char)
    requires |Split(s, sep)| >= 2
    ensures StartsWith(s, Split(s, sep)[0] + [sep] + Split(s, sep)[1])
    ensures var n := |Split(s, sep)[0]| + 1 + |Split(s, sep)[1]|; n == |s| || s[n] == sep
    decreases |s|
  {
    var parts := Split(s, sep);
    var rest := Split(s[1..], sep);
    if s[0] == sep {
      SplitPiecesFree(s, sep);
      SplitNoSeparator(parts[1], sep);
      SplitFirst(s[1..], sep);
      assert s == [sep] + s[1..];
    } else {
      SplitPrefix(s[1..], sep);
      assert s == [s[0]] + s[1..];
    }
  }

  /** The first piece of a split is a prefix of the text, followed by its end or a separator. */
  lemma {:induction false} SplitFirst(s: string, sep: char)
    ensures StartsWith(s, Split(s, sep)[0])
    ensures var n := |Split(s, sep)[0]|; n == |s| || s[n] == sep
    decreases |s|
  {
    if s != [] && s[0] != sep {
      SplitFirst(s[1..], sep);
      assert s == [s[0]] + s[1..];
    }
  }

  function Slashes(n: nat): (s: string)
    ensures |s| == n && forall i :: 0 <= i < n ==> s[i] == '/'
  {
    seq(n, _ => '/')
  }

  /** Trailing slashes make no difference to the parsed owner and repository. */
  lemma {:induction false} ParseIgnoresTrailingSlashes(url: string, n: nat)
    ensures ParseGithubUrl(url + Slashes(n)) == ParseGithubUrl(url)
  {
    TrimEndSlashes(url, n);
  }

  lemma {:induction false} TrimEndSlashes(url: string, n: nat)
    ensures TrimEndMatches(url + Slashes(n), "/") == TrimEndMatches(url, "/")
    decreases n
  {
    if n > 0 {
      var v := url + Slashes(n - 1);
      var u := url + Slashes(n);
      assert u == v + "/";
      assert EndsWith(u, "/");
      assert u[..|u| - 1] == v;
      TrimEndSlashes(url, n - 1);
    } else {
      assert url + Slashes(n) == url;
    }
  }

  /**
   * Round trip: a URL written as `https://github.com/OWNER/REPO`, optionally
   * followed by a further path, parses back to OWNER and REPO.
   */
  lemma ParseComposedUrl(owner: string, repo: string, extra: string)
    requires '/' !in owner && '/' !in repo && repo != "" && owner != "github.com"
    requires extra == "" || extra[0] == '/'
    ensures ParseGithubUrl("https://github.com/" + owner + "/" + repo + extra) == Ok((owner, repo))
  {
    var t := ComposedUrlPath(owner, repo, extra);
    ComposedSplit(owner, repo, t);
  }

  lemma ComposedUrlPath(owner: string, repo: string, extra: string) returns (t: string)
    requires '/' !in owner && '/' !in repo && repo != "" && owner != "github.com"
    requires extra == "" || extra[0] == '/'
    ensures UrlPath("https://github.com/" + owner + "/" + repo + extra) == owner + "/" + (repo + t)
    ensures t == "" || t[0] == '/'
  {
    t := TrimEndMatches(extra, "/");
    ComposedTrimEnd(owner, repo, extra);
    ComposedAssoc(owner, repo, t);
    ComposedTrimStart(owner, owner + "/" + (repo + t));
  }

  lemma ComposedSplit(owner: string, repo: string, t: string)
    requires '/' !in owner && '/' !in repo
    requires t == "" || t[0] == '/'
    ensures var parts := Split(owner + "/" + (repo + t), '/'); |parts| >= 2 && parts[0] == owner && parts[1] == repo
  {
    SplitAtSeparator(owner, repo + t, '/');
    assert owner + "/" + (repo + t) == owner + ['/'] + (repo + t);
    if t == "" {
      assert repo + t == repo;
      SplitNoSeparator(repo, '/');
    } else {
      assert repo + t == repo + ['/'] + t[1..];
      SplitAtSeparator(repo, t[1..], '/');
    }
  }

  /** Trailing slashes are trimmed from the extra path only. */
  lemma ComposedTrimEnd(owner: string, repo: string, extra: string)
    requires '/' !in repo && repo != ""
    requires extra == "" || extra[0] == '/'
    ensures TrimEndMatches("https://github.com/" + owner + "/" + repo + extra, "/")
         == "https://github.com/" + owner + "/" + repo + TrimEndMatches(extra, "/")
    ensures var t := TrimEndMatches(extra, "/"); t == "" || t[0] == '/'
  {
    var a := "https://github.com/" + owner + "/" + repo;
    assert a[|a| - 1] == repo[|repo| - 1] != '/';
    TrimEndAppend(a, extra, '/');
  }

  lemma ComposedAssoc(owner: string, repo: string, t: string)
    ensures "https://github.com/" + owner + "/" + repo + t == "https://" + ("github.com/" + (owner + "/" + (repo + t)))
  {
    var h := "https://";
    var g := "github.com/";
    assert "https://github.com/" == h + g;
    assert owner + "/" + repo + t == owner + "/" + (repo + t);
    assert h + g + owner + "/" + repo + t == h + (g + (owner + "/" + (repo + t)));
  }

  /** The scheme and host prefixes are each removed once. */
  lemma ComposedTrimStart(owner: string, b: string)
    requires '/' !in owner && owner != "github.com"
    requires exists rest :: b == owner + "/" + rest
    ensures TrimStartMatches(TrimStartMatches(TrimStartMatches("https://" + ("github.com/" + b), "https://"), "http://"), "github.com/") == b
  {
    var rest :| b == owner + "/" + rest;
    var g := "github.com/" + b;
    assert g[0] == 'g' != 'h';
    assert !StartsWith(g, "https://");
    TrimStartOnce("https://", g);
    assert !StartsWith(g, "http://");
    NotGithubHostPrefix(owner, rest);
    TrimStartOnce("github.com/", b);
  }

  /** Trimming a prefix that occurs once, in front of text that does not begin with it. */
  lemma TrimStartOnce(p: string, s: string)
    requires p != [] && !StartsWith(s, p)
    ensures TrimStartMatches(p + s, p) == s
  {
    assert StartsWith(p + s, p);
    assert (p + s)[|p|..] == s;
  }

  lemma NotGithubHostPrefix(owner: string, rest: string)
    requires '/' !in owner && owner != "github.com"
    ensures !StartsWith(owner + "/" + rest, "github.com/")
  {
    var s := owner + "/" + rest;
    var h := "github.com/";
    if |h| <= |s| {
      if |owner| < 10 {
        assert s[..|h|][|owner|] == '/' != h[|owner|];
      } else if |owner| == 10 {
        assert s[..|h|][..10] == owner;
        assert h[..10] == "github.com";
      } else {
        assert s[..|h|][10] == owner[10] != '/';
      }
    }
  }

  // ---------------------------------------------------------------------------
  // Line counting

  /** The number of lines that are not blank. */
  function CountNonBlank(lines: seq<string>): (n: nat)
    ensures n <= |lines|
  {
    if lines == [] then 0 else (if IsBlank(lines[0]) then 0 else 1) + CountNonBlank(lines[1..])
  }

  /** `count_csv_lines`: the non-blank lines less one header line, never below zero. */
  function CountCsvLines(content: string): (n: nat)
    ensures n + 1 >= CountNonBlank(Split(content, '\n'))
    ensures n < |Split(content, '\n')|
    ensures n == 0 <==> CountNonBlank(Split(content, '\n')) <= 1
    ensures n > 0 ==> n + 1 == CountNonBlank(Split(content, '\n'))
  {
    var nonBlank := CountNonBlank(Split(content, '\n'));
    if nonBlank == 0 then 0 else nonBlank - 1
  }

  /** The header line is not counted; every non-blank line after it is. */
  lemma CountCsvLinesAfterHeader(header: string, body: string)
    requires '\n' !in header && !IsBlank(header)
    ensures CountCsvLines(header + "\n" + body) == CountNonBlank(Split(body, '\n'))
  {
    SplitAtSeparator(header, body, '\n');
    assert header + "\n" + body == header + ['\n'] + body;
    assert ([header] + Split(body, '\n'))[1..] == Split(body, '\n');
  }

  lemma {:induction false} CountNonBlankAppend(a: seq<string>, b: seq<string>)
    ensures CountNonBlank(a + b) == CountNonBlank(a) + CountNonBlank(b)
    decreases |a|
  {
    if a == [] {
      assert a + b == b;
    } else {
      assert (a + b)[1..] == a[1..] + b;
      CountNonBlankAppend(a[1..], b);
    }
  }

  lemma {:induction false} CountNonBlankAllBlank(lines: seq<string>)
    requires forall k :: 0 <= k < |lines| ==> IsBlank(lines[k])
    ensures CountNonBlank(lines) == 0
    decreases |lines|
  {
    if lines != [] {
      CountNonBlankAllBlank(lines[1..]);
    }
  }

  /**
   * Blank lines before the header are passed over: the first non-blank line
   * is the one not counted, and every non-blank line after it is.
   */
  lemma CountCsvLinesAfterBlankLines(blanks: seq<string>, header: string, body: string)
    requires forall k :: 0 <= k < |blanks| ==> '\n' !in blanks[k] && IsBlank(blanks[k])
    requires '\n' !in header && !IsBlank(header)
    ensures CountCsvLines(Terminated(blanks, '\n') + header + "\n" + body) == CountNonBlank(Split(body, '\n'))
  {
    var rest := header + "\n" + body;
    assert Terminated(blanks, '\n') + header + "\n" + body == Terminated(blanks, '\n') + rest;
    SplitTerminatedThen(blanks, rest, '\n');
    SplitAtSeparator(header, body, '\n');
    assert rest == header + ['\n'] + body;
    CountNonBlankAppend(blanks, [header] + Split(body, '\n'));
    CountNonBlankAllBlank(blanks);
    assert ([header] + Split(body, '\n'))[1..] == Split(body, '\n');
  }

  /** A text whose lines are all blank counts no candles. */
  lemma CountCsvLinesAllBlank(content: string)
    requires forall k :: 0 <= k < |Split(content, '\n')| ==> IsBlank(Split(content, '\n')[k])
    ensures CountCsvLines(content) == 0
  {
    CountNonBlankAllBlank(Split(content, '\n'));
  }

  /** A file holding only a header, or nothing, has no candles. */
  lemma CountCsvLinesHeaderOnly(header: string)
    requires '\n' !in header
    ensures CountCsvLines(header) == 0
  {
    SplitNoSeparator(header, '\n');
  }

  // ---------------------------------------------------------------------------
  // One symbol folder

  /** The listing filter: a file whose upper-cased name ends in `.CSV`. */
  predicate IsCsvEntry(item: GitHubContent)
  {
    item.contentType == "file" && EndsWith(ToUpper(item.name), ".CSV")
  }

  function CsvEntries(contents: seq<GitHubContent>): (files: seq<GitHubContent>)
    ensures forall i :: 0 <= i < |files| ==> IsCsvEntry(files[i])
    ensures forall item :: item in contents && IsCsvEntry(item) ==> item in files
    ensures forall item :: item in files ==> item in contents
  {
    if contents == [] then []
    else (if IsCsvEntry(contents[0]) then [contents[0]] else []) + CsvEntries(contents[1..])
  }

  /** The timeframe code a file name stands for: its name without `.csv` or `.CSV` suffixes, upper-cased. */
  function TimeframeOfFile(name: string): string
  {
    ToUpper(TrimEndMatches(TrimEndMatches(name, ".csv"), ".CSV"))
  }

  /**
   * What one listed CSV file contributes: nothing when its code is not a
   * timeframe, when it has no download URL or when the download fails;
   * otherwise a timeframe staged under `temp/SYMBOL/CODE.csv`.
   */
  function StagedTimeframe(file: GitHubContent, downloads: map<string, string>, symbolName: string): (staged: Option<TimeframeInfo>)
    ensures staged.Some? <==>
      IsValidTimeframe(TimeframeOfFile(file.name)) && file.downloadUrl.Some? && file.downloadUrl.value in downloads
  {
    var tf := TimeframeOfFile(file.name);
    if !IsValidTimeframe(tf) then None
    else match file.downloadUrl
      case None => None
      case Some(url) =>
        if url !in downloads then None
        else Some(TimeframeInfo(tf, GithubDisplay(tf), CountCsvLines(downloads[url]), TempCsvPath(symbolName, tf)))
  }

  /** The timeframes collected from `files`, in listing order. */
  function Collected(files: seq<GitHubContent>, downloads: map<string, string>, symbolName: string): seq<TimeframeInfo>
  {
    if files == [] then []
    else Collected(files[..|files| - 1], downloads, symbolName) + OptionToSeq(StagedTimeframe(files[|files| - 1], downloads, symbolName))
  }

  /** A timeframe the importer accepts, staged for `symbolName`. */
  predicate IsStagedInfo(info: TimeframeInfo, symbolName: string)
  {
    info.name in GithubOrder && info.displayName == GithubDisplay(info.name) && info.filePath == TempCsvPath(symbolName, info.name)
  }

  /**
   * Every collected timeframe carries a known code, its display label and its
   * staging path, and there is at most one per listed file.
   */
  lemma {:induction false} CollectedFacts(files: seq<GitHubContent>, downloads: map<string, string>, symbolName: string)
    ensures |Collected(files, downloads, symbolName)| <= |files|
    ensures forall info :: info in Collected(files, downloads, symbolName) ==> IsStagedInfo(info, symbolName)
    decreases |files|
  {
    if files != [] {
      CollectedFacts(files[..|files| - 1], downloads, symbolName);
      var staged := StagedTimeframe(files[|files| - 1], downloads, symbolName);
      if staged.Some? {
        var tf := TimeframeOfFile(files[|files| - 1].name);
        assert ToUpper(tf) == tf by { ToUpperIdempotent(TrimEndMatches(TrimEndMatches(files[|files| - 1].name, ".csv"), ".CSV")); }
      }
    }
  }

  /** One more listed file adds what it stages, if anything. */
  lemma CollectedNext(files: seq<GitHubContent>, i: nat, downloads: map<string, string>, symbolName: string,
                      infos: seq<TimeframeInfo>)
    requires i < |files| && infos == Collected(files[..i], downloads, symbolName)
    ensures var staged := StagedTimeframe(files[i], downloads, symbolName);
      && (staged.None? ==> Collected(files[..i + 1], downloads, symbolName) == infos)
      && (staged.Some? ==> Collected(files[..i + 1], downloads, symbolName) == infos + [staged.value]
                           && TotalCandles(infos + [staged.value]) == TotalCandles(infos) + staged.value.candleCount)
  {
    assert files[..i + 1][..i] == files[..i];
    var staged := StagedTimeframe(files[i], downloads, symbolName);
    if staged.Some? {
      TotalCandlesAppend(infos, [staged.value]);
    }
  }

  /** The download loop of `process_symbol_folder`: collects the timeframes and sums their candles. */
  method CollectTimeframes(files: seq<GitHubContent>, downloads: map<string, string>, symbolName: string)
    returns (infos: seq<TimeframeInfo>, total: nat)
    ensures infos == Collected(files, downloads, symbolName)
    ensures total == TotalCandles(infos)
  {
    infos := [];
    total := 0;
    var i := 0;
    assert files[..0] == [];
    while i < |files|
      invariant 0 <= i <= |files|
      invariant infos == Collected(files[..i], downloads, symbolName)
      invariant total == TotalCandles(infos)
    {
      var staged := StagedTimeframe(files[i], downloads, symbolName);
      CollectedNext(files, i, downloads, symbolName, infos);
      if staged.Some? {
        infos := infos + [staged.value];
        total := total + staged.value.candleCount;
      }
      i := i + 1;
    }
    assert files[..i] == files;
  }

  /**
   * `process_symbol_folder` as a function of the remote, the symbol's folder
   * and the data directory before the call: the result and the data directory
   * after it. `now` is the upload time stamp.
   */
  function FolderRun(remote: Remote, owner: string, repo: string, path: string, symbolName: string,
                     branch: string, now: string, disk: AppData): (Result<SymbolData, GitHubError>, AppData)
  {
    var query := ListingQuery(owner, repo, path, branch);
    if query !in remote.listings then (Err(ListingFailed), disk)
    else
      var files := CsvEntries(remote.listings[query]);
      if files == [] then (Err(NoCsvFiles(path)), disk)
      else
        var staging := disk.(tempDirs := disk.tempDirs + {symbolName});
        var infos := Collected(files, remote.downloads, symbolName);
        if infos == [] then (Err(NothingDownloaded), staging)
        else
          var data := SymbolData(ToUpper(symbolName), SortByRank(GithubOrder, infos), TotalCandles(infos), now);
          (Ok(data), AppData(disk.symbols[data.symbol := data], staging.tempDirs - {symbolName}))
  }

  /**
   * Whether `process_symbol_folder` succeeds for a folder, whatever the data
   * directory holds: its listing is returned, it lists CSV files, and at
   * least one of them is a known code whose download is returned.
   */
  predicate FolderSucceeds(remote: Remote, owner: string, repo: string, path: string, symbolName: string, branch: string)
  {
    var query := ListingQuery(owner, repo, path, branch);
    && query in remote.listings
    && CsvEntries(remote.listings[query]) != []
    && Collected(CsvEntries(remote.listings[query]), remote.downloads, symbolName) != []
  }

  /**
   * What one folder run promises: it succeeds exactly when `FolderSucceeds`
   * and otherwise reports the first missing step; a saved record is well formed, sorted by
   * the GitHub order, a stable rearrangement of the collected timeframes, and
   * the only record that changes; a failed run changes no record; the staging
   * directory is removed exactly when the run succeeds and no other staging
   * directory is touched.
   */
  lemma FolderRunFacts(remote: Remote, owner: string, repo: string, path: string, symbolName: string,
                       branch: string, now: string, disk: AppData)
    ensures var (r, after) := FolderRun(remote, owner, repo, path, symbolName, branch, now, disk);
      var query := ListingQuery(owner, repo, path, branch);
      && (r.Ok? <==> FolderSucceeds(remote, owner, repo, path, symbolName, branch))
      && (query !in remote.listings ==> r == Err(ListingFailed))
      && (query in remote.listings && CsvEntries(remote.listings[query]) == [] ==> r == Err(NoCsvFiles(path)))
      && (query in remote.listings && CsvEntries(remote.listings[query]) != [] && r.Err? ==> r == Err(NothingDownloaded))
      && (r.Ok? ==>
            && r.value.symbol == ToUpper(symbolName)
            && WellFormedRecord(r.value)
            && SortedByRank(GithubOrder, r.value.timeframes)
            && (forall info :: info in r.value.timeframes ==> IsStagedInfo(info, symbolName))
            && after.symbols == disk.symbols[r.value.symbol := r.value])
      && (r.Err? ==> after.symbols == disk.symbols)
      && (symbolName in after.tempDirs <==> r.Err? && (symbolName in disk.tempDirs || r.error == NothingDownloaded))
      && (forall d :: d != symbolName ==> (d in after.tempDirs <==> d in disk.tempDirs))
  {
    var query := ListingQuery(owner, repo, path, branch);
    if query in remote.listings {
      var files := CsvEntries(remote.listings[query]);
      if files != [] {
        var infos := Collected(files, remote.downloads, symbolName);
        if infos != [] {
          CollectedFacts(files, remote.downloads, symbolName);
          SortedRecordFacts(symbolName, infos, now);
          var data := SymbolData(ToUpper(symbolName), SortByRank(GithubOrder, infos), TotalCandles(infos), now);
          var staging := disk.tempDirs + {symbolName};
          assert FolderRun(remote, owner, repo, path, symbolName, branch, now, disk)
              == (Ok(data), AppData(disk.symbols[data.symbol := data], staging - {symbolName}));
          StagingRemoved(disk.tempDirs, symbolName);
        }
      }
    }
  }

  /** Adding and then removing the staging directory leaves the others as they were. */
  lemma StagingRemoved(dirs: set<string>, name: string)
    ensures name !in (dirs + {name}) - {name}
    ensures forall d :: d != name ==> (d in (dirs + {name}) - {name} <==> d in dirs)
  {
  }

  /** The record built from a non-empty list of staged timeframes. */
  lemma SortedRecordFacts(symbolName: string, infos: seq<TimeframeInfo>, now: string)
    requires infos != [] && forall info :: info in infos ==> IsStagedInfo(info, symbolName)
    ensures var data := SymbolData(ToUpper(symbolName), SortByRank(GithubOrder, infos), TotalCandles(infos), now);
      && WellFormedRecord(data)
      && SortedByRank(GithubOrder, data.timeframes)
      && forall info :: info in data.timeframes ==> IsStagedInfo(info, symbolName)
  {
    TotalCandlesSort(GithubOrder, infos);
    SortByRankSorted(GithubOrder, infos);
    var sorted := SortByRank(GithubOrder, infos);
    forall info | info in sorted ensures IsStagedInfo(info, symbolName) {
      assert info in multiset(sorted);
    }
  }

  /** The timeframes of a saved record are those collected, stably ordered by rank. */
  lemma FolderRunOrder(remote: Remote, owner: string, repo: string, path: string, symbolName: string,
                       branch: string, now: string, disk: AppData, k: nat)
    requires FolderRun(remote, owner, repo, path, symbolName, branch, now, disk).0.Ok?
    ensures var data := FolderRun(remote, owner, repo, path, symbolName, branch, now, disk).0.value;
      var infos := Collected(CsvEntries(remote.listings[ListingQuery(owner, repo, path, branch)]), remote.downloads, symbolName);
      multiset(data.timeframes) == multiset(infos) && WithRank(GithubOrder, data.timeframes, k) == WithRank(GithubOrder, infos, k)
  {
    var infos := Collected(CsvEntries(remote.listings[ListingQuery(owner, repo, path, branch)]), remote.downloads, symbolName);
    SortByRankStable(GithubOrder, infos, k);
  }

  /**
   * The saved record points at files inside the staging directory that the
   * same successful run removes.
   */
  lemma SavedPathsPointIntoRemovedDir(remote: Remote, owner: string, repo: string, path: string, symbolName: string,
                                      branch: string, now: string, disk: AppData)
    requires FolderRun(remote, owner, repo, path, symbolName, branch, now, disk).0.Ok?
    ensures var (r, after) := FolderRun(remote, owner, repo, path, symbolName, branch, now, disk);
      symbolName !in after.tempDirs &&
      forall info :: info in r.value.timeframes ==> StartsWith(info.filePath, "temp/" + symbolName + "/")
  {
    FolderRunFacts(remote, owner, repo, path, symbolName, branch, now, disk);
    var r := FolderRun(remote, owner, repo, path, symbolName, branch, now, disk).0;
    forall info | info in r.value.timeframes ensures StartsWith(info.filePath, "temp/" + symbolName + "/") {
      assert IsStagedInfo(info, symbolName);
      StagingPathInDir(symbolName, info.name);
    }
  }

  lemma StagingPathInDir(symbolName: string, tf: string)
    ensures StartsWith(TempCsvPath(symbolName, tf), "temp/" + symbolName + "/")
  {
    var p := "temp/" + symbolName + "/";
    assert TempCsvPath(symbolName, tf) == p + (tf + ".csv");
    assert (p + (tf + ".csv"))[..|p|] == p;
  }

  /** `process_symbol_folder`. */
  method ProcessSymbolFolder(remote: Remote, owner: string, repo: string, path: string, symbolName: string,
                             branch: string, now: string, disk: AppData)
    returns (r: Result<SymbolData, GitHubError>, after: AppData)
    ensures (r, after) == FolderRun(remote, owner, repo, path, symbolName, branch, now, disk)
  {
    var query := ListingQuery(owner, repo, path, branch);
    if query !in remote.listings {
      return Err(ListingFailed), disk;
    }
    var files := CsvEntries(remote.listings[query]);
    if files == [] {
      return Err(NoCsvFiles(path)), disk;
    }
    after := disk.(tempDirs := disk.tempDirs + {symbolName});
    var infos, total := CollectTimeframes(files, remote.downloads, symbolName);
    if infos == [] {
      return Err(NothingDownloaded), after;
    }
    var data := SymbolData(ToUpper(symbolName), SortByRank(GithubOrder, infos), total, now);
    after := AppData(after.symbols[data.symbol := data], after.tempDirs - {symbolName});
    r := Ok(data);
  }

  // ---------------------------------------------------------------------------
  // Every folder of a multi-symbol repository

  function DirEntries(contents: seq<GitHubContent>): (dirs: seq<GitHubContent>)
    ensures forall i :: 0 <= i < |dirs| ==> dirs[i].contentType == "dir"
    ensures forall item :: item in contents && item.contentType == "dir" ==> item in dirs
    ensures forall item :: item in dirs ==> item in contents
  {
    if contents == [] then []
    else (if contents[0].contentType == "dir" then [contents[0]] else []) + DirEntries(contents[1..])
  }

  /** The state of the folder loop: the symbols saved so far, their timeframe count, the data directory. */
  datatype Batch = Batch(processed: seq<string>, totalTimeframes: nat, disk: AppData)

  /**
   * One folder: skipped when its upper-cased name is already stored,
   * otherwise processed; a failure is passed over but keeps what it left on disk.
   */
  function BatchStep(remote: Remote, owner: string, repo: string, branch: string, now: string,
                     b: Batch, folder: GitHubContent): Batch
  {
    var name := ToUpper(folder.name);
    if SymbolExists(b.disk, name) then b
    else
      var (r, after) := FolderRun(remote, owner, repo, folder.path, name, branch, now, b.disk);
      if r.Ok? then Batch(b.processed + [r.value.symbol], b.totalTimeframes + |r.value.timeframes|, after)
      else b.(disk := after)
  }

  function BatchRun(remote: Remote, owner: string, repo: string, branch: string, now: string,
                    disk: AppData, folders: seq<GitHubContent>): Batch
  {
    if folders == [] then Batch([], 0, disk)
    else BatchStep(remote, owner, repo, branch, now, BatchRun(remote, owner, repo, branch, now, disk, folders[..|folders| - 1]), folders[|folders| - 1])
  }

  /** The number of timeframes stored for the listed symbols. */
  function SumTimeframes(names: seq<string>, symbols: map<string, SymbolData>): nat
  {
    if names == [] then 0
    else SumTimeframes(names[..|names| - 1], symbols)
         + (if names[|names| - 1] in symbols then |symbols[names[|names| - 1]].timeframes| else 0)
  }

  lemma {:induction false} SumTimeframesUpdate(names: seq<string>, symbols: map<string, SymbolData>, k: string, v: SymbolData)
    requires k !in names
    ensures SumTimeframes(names, symbols[k := v]) == SumTimeframes(names, symbols)
    decreases |names|
  {
    if names != [] {
      SumTimeframesUpdate(names[..|names| - 1], symbols, k, v);
    }
  }

  /** Records present at the start are still present and unchanged. */
  predicate RecordsKept(start: AppData, disk: AppData)
  {
    forall s :: s in start.symbols ==> s in disk.symbols && disk.symbols[s] == start.symbols[s]
  }

  /**
   * The processed symbols are distinct, were not stored at the start, are
   * stored now and have no staging directory left; every other stored record
   * was there at the start.
   */
  predicate ProcessedStored(start: AppData, processed: seq<string>, disk: AppData)
  {
    && (forall i, j :: 0 <= i < j < |processed| ==> processed[i] != processed[j])
    && (forall i :: 0 <= i < |processed| ==> processed[i] in disk.symbols && processed[i] !in start.symbols && processed[i] !in disk.tempDirs)
    && (forall s :: s in disk.symbols ==> s in start.symbols || s in processed)
  }

  /** What holds after each folder, relative to the data directory `start` the loop began with. */
  predicate BatchInvariant(start: AppData, b: Batch)
  {
    && ValidAppData(b.disk)
    && RecordsKept(start, b.disk)
    && ProcessedStored(start, b.processed, b.disk)
    && b.totalTimeframes == SumTimeframes(b.processed, b.disk.symbols)
  }

  lemma BatchStepInvariant(remote: Remote, owner: string, repo: string, branch: string, now: string,
                           start: AppData, b: Batch, folder: GitHubContent)
    requires BatchInvariant(start, b)
    ensures BatchInvariant(start, BatchStep(remote, owner, repo, branch, now, b, folder))
  {
    var name := ToUpper(folder.name);
    if !SymbolExists(b.disk, name) {
      FolderRunFacts(remote, owner, repo, folder.path, name, branch, now, b.disk);
      var run := FolderRun(remote, owner, repo, folder.path, name, branch, now, b.disk);
      if run.0.Ok? {
        ToUpperIdempotent(folder.name);
        BatchSaved(start, b, name, run.0.value, run.1);
      } else {
        BatchFailed(start, b, name, run.1);
      }
    }
  }

  /** A folder that was saved keeps the loop invariant. */
  lemma BatchSaved(start: AppData, b: Batch, name: string, data: SymbolData, after: AppData)
    requires BatchInvariant(start, b) && name !in b.disk.symbols
    requires data.symbol == name && WellFormedRecord(data)
    requires after.symbols == b.disk.symbols[name := data] && name !in after.tempDirs
    requires forall d :: d != name ==> (d in after.tempDirs <==> d in b.disk.tempDirs)
    ensures BatchInvariant(start, Batch(b.processed + [name], b.totalTimeframes + |data.timeframes|, after))
  {
    var ps := b.processed + [name];
    assert ValidAppData(after);
    assert RecordsKept(start, after);
    assert ProcessedStored(start, ps, after) by {
      ProcessedStoredSaved(start, b.processed, b.disk, name, after);
    }
    assert b.totalTimeframes + |data.timeframes| == SumTimeframes(ps, after.symbols) by {
      assert name !in b.processed;
      assert ps[..|ps| - 1] == b.processed;
      SumTimeframesUpdate(b.processed, b.disk.symbols, name, data);
    }
  }

  lemma ProcessedStoredSaved(start: AppData, processed: seq<string>, disk: AppData, name: string, after: AppData)
    requires ProcessedStored(start, processed, disk) && RecordsKept(start, disk) && name !in disk.symbols
    requires after.symbols.Keys == disk.symbols.Keys + {name} && name !in after.tempDirs
    requires forall d :: d != name ==> (d in after.tempDirs <==> d in disk.tempDirs)
    ensures ProcessedStored(start, processed + [name], after)
  {
    var ps := processed + [name];
    forall i, j | 0 <= i < j < |ps| ensures ps[i] != ps[j] {
      if j < |processed| {
        assert ps[i] == processed[i] && ps[j] == processed[j];
      } else {
        assert ps[i] == processed[i] && processed[i] in disk.symbols;
      }
    }
    forall i | 0 <= i < |ps| ensures ps[i] in after.symbols && ps[i] !in start.symbols && ps[i] !in after.tempDirs {
      if i < |processed| {
        assert ps[i] == processed[i] && processed[i] in disk.symbols;
      }
    }
  }

  /** A folder that failed keeps the loop invariant. */
  lemma BatchFailed(start: AppData, b: Batch, name: string, after: AppData)
    requires BatchInvariant(start, b) && name !in b.disk.symbols
    requires after.symbols == b.disk.symbols
    requires forall d :: d != name ==> (d in after.tempDirs <==> d in b.disk.tempDirs)
    ensures BatchInvariant(start, b.(disk := after))
  {
  }

  lemma {:induction false} BatchRunInvariant(remote: Remote, owner: string, repo: string, branch: string, now: string,
                                             disk: AppData, folders: seq<GitHubContent>)
    requires ValidAppData(disk)
    ensures BatchInvariant(disk, BatchRun(remote, owner, repo, branch, now, disk, folders))
    decreases |folders|
  {
    if folders != [] {
      BatchRunInvariant(remote, owner, repo, branch, now, disk, folders[..|folders| - 1]);
      BatchStepInvariant(remote, owner, repo, branch, now, disk,
        BatchRun(remote, owner, repo, branch, now, disk, folders[..|folders| - 1]), folders[|folders| - 1]);
    }
  }

  /**
   * A folder's symbol ends up among the processed ones exactly when it was not
   * stored before the loop and the folder's run succeeds: a folder skipped or
   * failed earlier never keeps a later one from being saved.
   */
  lemma {:induction false} BatchRunProcessed(remote: Remote, owner: string, repo: string, branch: string, now: string,
                                             disk: AppData, folders: seq<GitHubContent>)
    requires ValidAppData(disk)
    ensures var processed := BatchRun(remote, owner, repo, branch, now, disk, folders).processed;
      forall s :: s in processed <==> s !in disk.symbols && SavedBy(remote, owner, repo, branch, folders, s)
    decreases |folders|
  {
    if folders != [] {
      var prefix := folders[..|folders| - 1];
      var last := folders[|folders| - 1];
      BatchRunProcessed(remote, owner, repo, branch, now, disk, prefix);
      BatchRunInvariant(remote, owner, repo, branch, now, disk, prefix);
      StepProcessed(remote, owner, repo, branch, now, disk, BatchRun(remote, owner, repo, branch, now, disk, prefix), last);
      SavedByLast(remote, owner, repo, branch, folders);
    }
  }

  /** Folder `f` is the one for symbol `s`, and its run succeeds. */
  predicate NewFolderSaves(remote: Remote, owner: string, repo: string, branch: string, f: GitHubContent, s: string)
  {
    ToUpper(f.name) == s && FolderSucceeds(remote, owner, repo, f.path, s, branch)
  }

  /** Some folder among `folders` is the one for symbol `s`, and its run succeeds. */
  predicate SavedBy(remote: Remote, owner: string, repo: string, branch: string, folders: seq<GitHubContent>, s: string)
  {
    exists f :: f in folders && NewFolderSaves(remote, owner, repo, branch, f, s)
  }

  lemma SavedByLast(remote: Remote, owner: string, repo: string, branch: string, folders: seq<GitHubContent>)
    requires folders != []
    ensures forall s :: SavedBy(remote, owner, repo, branch, folders, s) <==>
      SavedBy(remote, owner, repo, branch, folders[..|folders| - 1], s) || NewFolderSaves(remote, owner, repo, branch, folders[|folders| - 1], s)
  {
    var prefix := folders[..|folders| - 1];
    assert folders == prefix + [folders[|folders| - 1]];
    forall s | SavedBy(remote, owner, repo, branch, prefix, s)
      ensures SavedBy(remote, owner, repo, branch, folders, s)
    {
      var f :| f in prefix && NewFolderSaves(remote, owner, repo, branch, f, s);
      assert f in folders;
    }
  }

  /** One folder adds its symbol exactly when the symbol is new and the folder's run succeeds. */
  lemma StepProcessed(remote: Remote, owner: string, repo: string, branch: string, now: string,
                      start: AppData, b: Batch, folder: GitHubContent)
    requires BatchInvariant(start, b)
    ensures forall s ::
      s in BatchStep(remote, owner, repo, branch, now, b, folder).processed
      <==> s in b.processed || (s !in start.symbols && NewFolderSaves(remote, owner, repo, branch, folder, s))
  {
    var name := ToUpper(folder.name);
    ToUpperIdempotent(folder.name);
    if !SymbolExists(b.disk, name) {
      FolderRunFacts(remote, owner, repo, folder.path, name, branch, now, b.disk);
    }
  }

  // ---------------------------------------------------------------------------
  // The command

  /** An empty branch means `main`. */
  function EffectiveBranch(branch: string): (b: string)
    ensures b != "" && (branch != "" ==> b == branch)
  {
    if branch == "" then "main" else branch
  }

  /** One named symbol: refused when already stored, otherwise one folder run. */
  function SingleFolder(remote: Remote, owner: string, repo: string, path: string, symbol: string,
                        branch: string, now: string, disk: AppData): (Result<GitHubResult, GitHubError>, AppData)
  {
    if SymbolExists(disk, symbol) then (Err(AlreadyExists(symbol)), disk)
    else
      var run := FolderRun(remote, owner, repo, path, symbol, branch, now, disk);
      if run.0.Ok? then (Ok(GitHubResult([run.0.value.symbol], |run.0.value.timeframes|)), run.1)
      else (Err(run.0.error), run.1)
  }

  /** Every folder at the root of a multi-symbol repository. */
  function AllFolders(remote: Remote, owner: string, repo: string, branch: string, now: string,
                      disk: AppData): (Result<GitHubResult, GitHubError>, AppData)
  {
    var root := ListingQuery(owner, repo, "", branch);
    if root !in remote.listings then (Err(ListingFailed), disk)
    else
      var folders := DirEntries(remote.listings[root]);
      if folders == [] then (Err(NoSymbolFolders), disk)
      else
        var b := BatchRun(remote, owner, repo, branch, now, disk, folders);
        if b.processed == [] then (Err(NoSymbolsDownloaded), b.disk)
        else (Ok(GitHubResult(b.processed, b.totalTimeframes)), b.disk)
  }

  /** The symbol a request names, upper-cased, when it names one folder; `None` otherwise. */
  function TargetSymbol(req: GitHubRequest, repo: string): Option<string>
  {
    if req.structureType == "single" then Some(ToUpper(if req.symbolName.Some? then req.symbolName.value else repo))
    else if req.structureType == "multi" && req.symbolName.Some? then Some(ToUpper(req.symbolName.value))
    else None
  }

  /** The folder a request that names one symbol downloads: the root for a single-symbol repository. */
  function TargetPath(req: GitHubRequest): string
  {
    if req.structureType == "single" then "" else if req.symbolName.Some? then req.symbolName.value else ""
  }

  /** The command once the URL has given the owner and the repository. */
  function RepoRun(req: GitHubRequest, owner: string, repo: string, remote: Remote, now: string,
                   disk: AppData): (Result<GitHubResult, GitHubError>, AppData)
  {
    var branch := EffectiveBranch(req.branch);
    match TargetSymbol(req, repo)
    case Some(symbol) => SingleFolder(remote, owner, repo, TargetPath(req), symbol, branch, now, disk)
    case None =>
      if req.structureType == "multi" then AllFolders(remote, owner, repo, branch, now, disk)
      else (Err(InvalidStructureType), disk)
  }

  /** `fetch_github_data_command` as a function of the request, the remote and the data directory. */
  function GithubRun(req: GitHubRequest, remote: Remote, now: string, disk: AppData): (Result<GitHubResult, GitHubError>, AppData)
  {
    var parsed := ParseGithubUrl(req.repoUrl);
    if parsed.Err? then (Err(parsed.error), disk)
    else RepoRun(req, parsed.value.0, parsed.value.1, remote, now, disk)
  }

  /**
   * What every command run promises, relative to the data directory before
   * it: records stay valid, stored records are never overwritten or removed,
   * a failure stores nothing new, and a success reports at least one symbol,
   * each new, distinct, now stored and without a staging directory, with the
   * total of their timeframes.
   */
  predicate CommandPost(disk: AppData, r: Result<GitHubResult, GitHubError>, after: AppData)
  {
    && ValidAppData(after)
    && (forall s :: s in disk.symbols ==> s in after.symbols && after.symbols[s] == disk.symbols[s])
    && (r.Err? ==> after.symbols == disk.symbols)
    && (r.Ok? ==> var ps := r.value.symbolsProcessed;
          && ps != []
          && (forall i, j :: 0 <= i < j < |ps| ==> ps[i] != ps[j])
          && (forall i :: 0 <= i < |ps| ==> ps[i] !in disk.symbols && ps[i] in after.symbols && ps[i] !in after.tempDirs)
          && (forall s :: s in after.symbols ==> s in disk.symbols || s in ps)
          && r.value.totalTimeframes == SumTimeframes(ps, after.symbols))
  }

  /**
   * When the every-folder mode succeeds: the root listing is returned and some
   * folder in it belongs to a symbol not yet stored and its run succeeds.
   */
  predicate SomeFolderSaves(remote: Remote, owner: string, repo: string, branch: string, disk: AppData)
  {
    var root := ListingQuery(owner, repo, "", branch);
    && root in remote.listings
    && exists f :: f in remote.listings[root] && f.contentType == "dir" && ToUpper(f.name) !in disk.symbols
                   && NewFolderSaves(remote, owner, repo, branch, f, ToUpper(f.name))
  }

  /**
   * When the command succeeds once the URL has given the owner and the
   * repository: the one named symbol is new and its folder run succeeds, or,
   * in the every-folder mode, some folder saves.
   */
  predicate RepoSucceeds(req: GitHubRequest, owner: string, repo: string, remote: Remote, disk: AppData)
  {
    var branch := EffectiveBranch(req.branch);
    match TargetSymbol(req, repo)
    case Some(symbol) => symbol !in disk.symbols && FolderSucceeds(remote, owner, repo, TargetPath(req), symbol, branch)
    case None => req.structureType == "multi" && SomeFolderSaves(remote, owner, repo, branch, disk)
  }

  lemma GithubRunFacts(req: GitHubRequest, remote: Remote, now: string, disk: AppData)
    requires ValidAppData(disk)
    ensures CommandPost(disk, GithubRun(req, remote, now, disk).0, GithubRun(req, remote, now, disk).1)
    ensures var parsed := ParseGithubUrl(req.repoUrl);
      GithubRun(req, remote, now, disk).0.Ok? <==> parsed.Ok? && RepoSucceeds(req, parsed.value.0, parsed.value.1, remote, disk)
  {
    var parsed := ParseGithubUrl(req.repoUrl);
    if parsed.Ok? {
      RepoRunFacts(req, parsed.value.0, parsed.value.1, remote, now, disk);
    }
  }

  lemma RepoRunFacts(req: GitHubRequest, owner: string, repo: string, remote: Remote, now: string, disk: AppData)
    requires ValidAppData(disk)
    ensures CommandPost(disk, RepoRun(req, owner, repo, remote, now, disk).0, RepoRun(req, owner, repo, remote, now, disk).1)
    ensures RepoRun(req, owner, repo, remote, now, disk).0.Ok? <==> RepoSucceeds(req, owner, repo, remote, disk)
    ensures TargetSymbol(req, repo).None? && req.structureType != "multi" ==>
      RepoRun(req, owner, repo, remote, now, disk) == (Err(InvalidStructureType), disk)
  {
    var branch := EffectiveBranch(req.branch);
    match TargetSymbol(req, repo)
    case Some(symbol) =>
      TargetSymbolUpper(req, repo);
      SingleFolderFacts(remote, owner, repo, TargetPath(req), symbol, branch, now, disk);
    case None =>
      AllFoldersFacts(remote, owner, repo, branch, now, disk);
  }

  lemma TargetSymbolUpper(req: GitHubRequest, repo: string)
    requires TargetSymbol(req, repo).Some?
    ensures ToUpper(TargetSymbol(req, repo).value) == TargetSymbol(req, repo).value
  {
    ToUpperIdempotent(if req.structureType == "single" && req.symbolName.None? then repo else req.symbolName.value);
  }

  lemma SingleFolderFacts(remote: Remote, owner: string, repo: string, path: string, symbol: string,
                          branch: string, now: string, disk: AppData)
    requires ValidAppData(disk) && ToUpper(symbol) == symbol
    ensures CommandPost(disk, SingleFolder(remote, owner, repo, path, symbol, branch, now, disk).0,
                        SingleFolder(remote, owner, repo, path, symbol, branch, now, disk).1)
    ensures var r := SingleFolder(remote, owner, repo, path, symbol, branch, now, disk).0;
      && (r.Ok? ==> r.value.symbolsProcessed == [symbol])
      && (r.Ok? <==> symbol !in disk.symbols && FolderSucceeds(remote, owner, repo, path, symbol, branch))
      && (symbol in disk.symbols ==> r == Err(AlreadyExists(symbol)))
  {
    var empty := Batch([], 0, disk);
    assert BatchInvariant(disk, empty);
    if !SymbolExists(disk, symbol) {
      FolderRunFacts(remote, owner, repo, path, symbol, branch, now, disk);
      var run := FolderRun(remote, owner, repo, path, symbol, branch, now, disk);
      if run.0.Ok? {
        BatchSaved(disk, empty, symbol, run.0.value, run.1);
        assert [] + [symbol] == [symbol];
        PostOfBatch(disk, Batch([symbol], |run.0.value.timeframes|, run.1));
      } else {
        BatchFailed(disk, empty, symbol, run.1);
        PostOfBatch(disk, empty.(disk := run.1));
      }
    }
  }

  lemma AllFoldersFacts(remote: Remote, owner: string, repo: string, branch: string, now: string, disk: AppData)
    requires ValidAppData(disk)
    ensures CommandPost(disk, AllFolders(remote, owner, repo, branch, now, disk).0,
                        AllFolders(remote, owner, repo, branch, now, disk).1)
    ensures AllFolders(remote, owner, repo, branch, now, disk).0.Ok? <==> SomeFolderSaves(remote, owner, repo, branch, disk)
  {
    var root := ListingQuery(owner, repo, "", branch);
    if root in remote.listings {
      var folders := DirEntries(remote.listings[root]);
      BatchRunInvariant(remote, owner, repo, branch, now, disk, folders);
      PostOfBatch(disk, BatchRun(remote, owner, repo, branch, now, disk, folders));
      BatchRunProcessed(remote, owner, repo, branch, now, disk, folders);
      DirEntriesMembers(remote.listings[root]);
      var processed := BatchRun(remote, owner, repo, branch, now, disk, folders).processed;
      if SomeFolderSaves(remote, owner, repo, branch, disk) {
        var f :| f in remote.listings[root] && f.contentType == "dir" && ToUpper(f.name) !in disk.symbols
                 && NewFolderSaves(remote, owner, repo, branch, f, ToUpper(f.name));
        assert ToUpper(f.name) in processed;
      }
      if processed != [] {
        assert processed[0] in processed;
      }
    }
  }

  /**
   * The every-folder mode reports exactly the symbols that were not stored
   * before and whose folder at the repository root downloads.
   */
  lemma AllFoldersProcessed(remote: Remote, owner: string, repo: string, branch: string, now: string, disk: AppData)
    requires ValidAppData(disk)
    ensures var r := AllFolders(remote, owner, repo, branch, now, disk).0;
      var root := ListingQuery(owner, repo, "", branch);
      r.Ok? ==> forall s ::
        s in r.value.symbolsProcessed
        <==> s !in disk.symbols && exists f :: f in remote.listings[root] && f.contentType == "dir" && NewFolderSaves(remote, owner, repo, branch, f, s)
  {
    var root := ListingQuery(owner, repo, "", branch);
    if root in remote.listings {
      var folders := DirEntries(remote.listings[root]);
      BatchRunProcessed(remote, owner, repo, branch, now, disk, folders);
      DirEntriesMembers(remote.listings[root]);
    }
  }

  lemma DirEntriesMembers(contents: seq<GitHubContent>)
    ensures forall f :: f in DirEntries(contents) <==> f in contents && f.contentType == "dir"
  {
    var dirs := DirEntries(contents);
    forall f | f in dirs ensures f.contentType == "dir" {
      var i :| 0 <= i < |dirs| && dirs[i] == f;
    }
  }

  /** The loop invariant gives the command's promise, whichever way the loop ended. */
  lemma PostOfBatch(start: AppData, b: Batch)
    requires BatchInvariant(start, b)
    ensures b.processed != [] ==> CommandPost(start, Ok(GitHubResult(b.processed, b.totalTimeframes)), b.disk)
    ensures b.processed == [] ==> forall e :: CommandPost(start, Err(e), b.disk)
  {
    if b.processed == [] {
      assert b.disk.symbols.Keys == start.symbols.Keys;
    }
  }

  /**
   * A request naming one symbol that is already stored is refused before any
   * request is made, and the data directory is left as it was.
   */
  lemma ExistingSymbolRefused(req: GitHubRequest, remote: Remote, now: string, disk: AppData)
    requires ParseGithubUrl(req.repoUrl).Ok?
    requires var target := TargetSymbol(req, ParseGithubUrl(req.repoUrl).value.1); target.Some? && target.value in disk.symbols
    ensures GithubRun(req, remote, now, disk) == (Err(AlreadyExists(TargetSymbol(req, ParseGithubUrl(req.repoUrl).value.1).value)), disk)
  {
    var parsed := ParseGithubUrl(req.repoUrl);
    RepoRunRefused(req, parsed.value.0, parsed.value.1, remote, now, disk);
  }

  lemma RepoRunRefused(req: GitHubRequest, owner: string, repo: string, remote: Remote, now: string, disk: AppData)
    requires var target := TargetSymbol(req, repo); target.Some? && target.value in disk.symbols
    ensures RepoRun(req, owner, repo, remote, now, disk) == (Err(AlreadyExists(TargetSymbol(req, repo).value)), disk)
  {
  }

  /** Importing the same single symbol twice: the second import is refused. */
  lemma SecondImportRefused(req: GitHubRequest, remote: Remote, remote2: Remote, now: string, now2: string, disk: AppData)
    requires ValidAppData(disk)
    requires ParseGithubUrl(req.repoUrl).Ok? && TargetSymbol(req, ParseGithubUrl(req.repoUrl).value.1).Some?
    requires GithubRun(req, remote, now, disk).0.Ok?
    ensures var after := GithubRun(req, remote, now, disk).1;
      GithubRun(req, remote2, now2, after) == (Err(AlreadyExists(TargetSymbol(req, ParseGithubUrl(req.repoUrl).value.1).value)), after)
  {
    var parsed := ParseGithubUrl(req.repoUrl);
    RepoRunStoresTarget(req, parsed.value.0, parsed.value.1, remote, now, disk);
    ExistingSymbolRefused(req, remote2, now2, GithubRun(req, remote, now, disk).1);
  }

  lemma RepoRunStoresTarget(req: GitHubRequest, owner: string, repo: string, remote: Remote, now: string, disk: AppData)
    requires ValidAppData(disk)
    requires TargetSymbol(req, repo).Some? && RepoRun(req, owner, repo, remote, now, disk).0.Ok?
    ensures TargetSymbol(req, repo).value in RepoRun(req, owner, repo, remote, now, disk).1.symbols
  {
    var symbol := TargetSymbol(req, repo).value;
    TargetSymbolUpper(req, repo);
    SingleFolderFacts(remote, owner, repo, TargetPath(req), symbol, EffectiveBranch(req.branch), now, disk);
  }

  /** `fetch_github_data_command`. */
  method FetchGithubData(req: GitHubRequest, remote: Remote, now: string, disk: AppData)
    returns (r: Result<GitHubResult, GitHubError>, after: AppData)
    ensures (r, after) == GithubRun(req, remote, now, disk)
  {
    var parsed := ParseGithubUrl(req.repoUrl);
    if parsed.Err? {
      return Err(parsed.error), disk;
    }
    var (owner, repo) := parsed.value;
    var branch := EffectiveBranch(req.branch);
    var target := TargetSymbol(req, repo);
    if target.Some? {
      r, after := FetchOneSymbol(remote, owner, repo, TargetPath(req), target.value, branch, now, disk);
    } else if req.structureType == "multi" {
      r, after := FetchAllSymbols(remote, owner, repo, branch, now, disk);
    } else {
      r, after := Err(InvalidStructureType), disk;
    }
  }

  /** The single-symbol branches of `fetch_github_data_command`. */
  method FetchOneSymbol(remote: Remote, owner: string, repo: string, path: string, symbol: string,
                        branch: string, now: string, disk: AppData)
    returns (r: Result<GitHubResult, GitHubError>, after: AppData)
    ensures (r, after) == SingleFolder(remote, owner, repo, path, symbol, branch, now, disk)
  {
    if SymbolExists(disk, symbol) {
      return Err(AlreadyExists(symbol)), disk;
    }
    var folder;
    folder, after := ProcessSymbolFolder(remote, owner, repo, path, symbol, branch, now, disk);
    if folder.Err? {
      return Err(folder.error), after;
    }
    r := Ok(GitHubResult([folder.value.symbol], |folder.value.timeframes|));
  }

  /** The every-folder branch of `fetch_github_data_command`. */
  method FetchAllSymbols(remote: Remote, owner: string, repo: string, branch: string, now: string, disk: AppData)
    returns (r: Result<GitHubResult, GitHubError>, after: AppData)
    ensures (r, after) == AllFolders(remote, owner, repo, branch, now, disk)
  {
    var root := ListingQuery(owner, repo, "", branch);
    if root !in remote.listings {
      return Err(ListingFailed), disk;
    }
    var folders := DirEntries(remote.listings[root]);
    if folders == [] {
      return Err(NoSymbolFolders), disk;
    }
    var batch := RunFolders(remote, owner, repo, branch, now, disk, folders);
    if batch.processed == [] {
      return Err(NoSymbolsDownloaded), batch.disk;
    }
    r, after := Ok(GitHubResult(batch.processed, batch.totalTimeframes)), batch.disk;
  }

  /** The folder loop of `fetch_github_data_command`. */
  method RunFolders(remote: Remote, owner: string, repo: string, branch: string, now: string,
                    disk: AppData, folders: seq<GitHubContent>) returns (batch: Batch)
    ensures batch == BatchRun(remote, owner, repo, branch, now, disk, folders)
  {
    batch := Batch([], 0, disk);
    var i := 0;
    while i < |folders|
      invariant 0 <= i <= |folders|
      invariant batch == BatchRun(remote, owner, repo, branch, now, disk, folders[..i])
    {
      assert folders[..i + 1][..i] == folders[..i];
      batch := ProcessFolderEntry(remote, owner, repo, branch, now, batch, folders[i]);
      i := i + 1;
    }
    assert folders[..i] == folders;
  }

  /** One pass of the folder loop. */
  method ProcessFolderEntry(remote: Remote, owner: string, repo: string, branch: string, now: string,
                            b: Batch, folder: GitHubContent) returns (next: Batch)
    ensures next == BatchStep(remote, owner, repo, branch, now, b, folder)
  {
    var name := ToUpper(folder.name);
    if SymbolExists(b.disk, name) {
      return b;
    }
    var r, after := ProcessSymbolFolder(remote, owner, repo, folder.path, name, branch, now, b.disk);
    if r.Ok? {
      next := Batch(b.processed + [r.value.symbol], b.totalTimeframes + |r.value.timeframes|, after);
    } else {
      next := b.(disk := after);
    }
  }
}
