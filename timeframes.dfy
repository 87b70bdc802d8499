/**
 * The timeframe vocabulary shared by the GitHub and Yahoo Finance importers:
 * the fifteen codes the GitHub importer accepts, the ten the Yahoo Finance
 * importer can fetch, their display labels, the Yahoo interval names, and the
 * rank order both importers sort a record's timeframes by.
 */
module Timeframes {
  import opened Wrappers
  import opened Ascii
  import opened Records

  /** The GitHub importer's codes, in the order records list them. */
  const GithubOrder: seq<string> :=
    ["M1", "M2", "M3", "M4", "M5", "M10", "M15", "M30", "H1", "H2", "H3", "H4", "D1", "W1", "MN1"]

  /** The Yahoo Finance importer's codes, in the order records list them. */
  const YFinanceOrder: seq<string> :=
    ["M1", "M2", "M5", "M15", "M30", "H1", "H4", "D1", "W1", "MN1"]

  /** The rank `unwrap_or(999)` gives a name missing from the order list. */
  const UnknownRank: nat := 999

  /** The position of `name` in `order`, or `UnknownRank` when it is absent. */
  function Rank(order: seq<string>, name: string): (r: nat)
    requires |order| < UnknownRank
    ensures r < |order| ==> order[r] == name
    ensures r >= |order| ==> r == UnknownRank && name !in order
  {
    RankFrom(order, name, 0)
  }

  /** `position` started at index `i`. */
  function RankFrom(order: seq<string>, name: string, i: nat): (r: nat)
    requires |order| < UnknownRank && i <= |order|
    ensures r < |order| ==> i <= r && order[r] == name && forall j :: i <= j < r ==> order[j] != name
    ensures r >= |order| ==> r == UnknownRank && forall j :: i <= j < |order| ==> order[j] != name
    decreases |order| - i
  {
    if i == |order| then UnknownRank
    else if order[i] == name then i
    else RankFrom(order, name, i + 1)
  }

  /** `is_valid_timeframe` (GitHub importer): a case-insensitive match against the fifteen codes. */
  function IsValidTimeframe(name: string): (valid: bool)
    ensures valid <==> ToUpper(name) in GithubOrder
  {
    match ToUpper(name)
    case "M1" | "M2" | "M3" | "M4" | "M5" | "M10" | "M15" | "M30"
      | "H1" | "H2" | "H3" | "H4" | "D1" | "W1" | "MN1" => true
    case _ => false
  }

  /** `convert_timeframe_to_display` of the GitHub importer. */
  function GithubDisplay(tf: string): (text: string)
    ensures tf in GithubOrder ==> text != tf
    ensures tf !in GithubOrder ==> text == tf
  {
    match tf
    case "M1" => "1 min"
    case "M2" => "2 min"
    case "M3" => "3 min"
    case "M4" => "4 min"
    case "M5" => "5 min"
    case "M10" => "10 min"
    case "M15" => "15 min"
    case "M30" => "30 min"
    case "H1" => "1 hour"
    case "H2" => "2 hour"
    case "H3" => "3 hour"
    case "H4" => "4 hours"
    case "D1" => "1 day"
    case "W1" => "1 week"
    case "MN1" => "1 month"
    case _ => tf
  }

  /**
   * `convert_timeframe_to_display` of the Yahoo Finance importer: the GitHub
   * labels on its ten codes, every other token (M3 included) unchanged.
   */
  function YFinanceDisplay(tf: string): (text: string)
    ensures text == if tf in YFinanceOrder then GithubDisplay(tf) else tf
  {
    match tf
    case "M1" => "1 min"
    case "M2" => "2 min"
    case "M5" => "5 min"
    case "M15" => "15 min"
    case "M30" => "30 min"
    case "H1" => "1 hour"
    case "H4" => "4 hours"
    case "D1" => "1 day"
    case "W1" => "1 week"
    case "MN1" => "1 month"
    case _ => tf
  }

  /** `map_timeframe_to_yfinance`: the Yahoo interval for a code, if it has one. */
  function YFinanceInterval(tf: string): (interval: Option<string>)
    ensures interval.Some? <==> tf in YFinanceOrder
  {
    match tf
    case "M1" => Some("1m")
    case "M2" => Some("2m")
    case "M5" => Some("5m")
    case "M15" => Some("15m")
    case "M30" => Some("30m")
    case "H1" => Some("1h")
    case "H4" => Some("4h")
    case "D1" => Some("1d")
    case "W1" => Some("1wk")
    case "MN1" => Some("1mo")
    case _ => None
  }

  /** The Yahoo codes are exactly the GitHub codes without M3, M4, M10, H2 and H3. */
  lemma YFinanceCodesAreGithubCodes(tf: string)
    ensures tf in YFinanceOrder <==> tf in GithubOrder && tf !in ["M3", "M4", "M10", "H2", "H3"]
  {
  }

  /** The Yahoo order is the GitHub order with M3, M4, M10, H2 and H3 left out. */
  lemma YFinanceOrderIsGithubSubsequence()
    ensures YFinanceOrder == [GithubOrder[0], GithubOrder[1], GithubOrder[4], GithubOrder[6], GithubOrder[7],
                              GithubOrder[8], GithubOrder[11], GithubOrder[12], GithubOrder[13], GithubOrder[14]]
  {
  }

  /** A rank is the first position of the name. */
  lemma RankIsFirstPosition(order: seq<string>, name: string, j: nat)
    requires |order| < UnknownRank && j < |order| && order[j] == name
    ensures Rank(order, name) <= j
  {
  }

  /** Distinct Yahoo codes map to distinct Yahoo intervals. */
  lemma YFinanceIntervalInjective(a: string, b: string)
    requires YFinanceInterval(a).Some? && YFinanceInterval(a) == YFinanceInterval(b)
    ensures a == b
  {
  }

  // ---------------------------------------------------------------------------
  // The stable sort by rank that both importers apply with `sort_by`.

  function Key(order: seq<string>, x: TimeframeInfo): nat
    requires |order| < UnknownRank
  {
    Rank(order, x.name)
  }

  predicate SortedByRank(order: seq<string>, s: seq<TimeframeInfo>)
    requires |order| < UnknownRank
  {
    forall i, j :: 0 <= i < j < |s| ==> Key(order, s[i]) <= Key(order, s[j])
  }

  /** The elements of `s` whose rank is `k`, in their order in `s`. */
  function WithRank(order: seq<string>, s: seq<TimeframeInfo>, k: nat): seq<TimeframeInfo>
    requires |order| < UnknownRank
  {
    if s == [] then []
    else (if Key(order, s[0]) == k then [s[0]] else []) + WithRank(order, s[1..], k)
  }

  /** Places `x` before the first element of `s` whose rank is not smaller. */
  function InsertByRank(order: seq<string>, x: TimeframeInfo, s: seq<TimeframeInfo>): (r: seq<TimeframeInfo>)
    requires |order| < UnknownRank
    ensures |r| == |s| + 1 && multiset(r) == multiset(s) + multiset{x}
  {
    if s == [] || Key(order, x) <= Key(order, s[0]) then [x] + s
    else
      assert s == [s[0]] + s[1..];
      [s[0]] + InsertByRank(order, x, s[1..])
  }

  /** Rust's stable `sort_by` on the rank of each element's name. */
  function SortByRank(order: seq<string>, s: seq<TimeframeInfo>): (r: seq<TimeframeInfo>)
    requires |order| < UnknownRank
    ensures |r| == |s| && multiset(r) == multiset(s)
  {
    if s == [] then []
    else
      assert s == [s[0]] + s[1..];
      InsertByRank(order, s[0], SortByRank(order, s[1..]))
  }

  /** An element no higher in rank than the head of a sorted list may go in front of it. */
  lemma PrependSorted(order: seq<string>, h: TimeframeInfo, t: seq<TimeframeInfo>)
    requires |order| < UnknownRank && SortedByRank(order, t)
    requires t != [] ==> Key(order, h) <= Key(order, t[0])
    ensures SortedByRank(order, [h] + t)
  {
    var r := [h] + t;
    forall i, j | 0 <= i < j < |r| ensures Key(order, r[i]) <= Key(order, r[j]) {
      assert r[j] == t[j - 1];
      if i == 0 {
        if j > 1 { assert Key(order, t[0]) <= Key(order, t[j - 1]); }
      } else {
        assert r[i] == t[i - 1];
      }
    }
  }

  lemma {:induction false} InsertByRankSorted(order: seq<string>, x: TimeframeInfo, s: seq<TimeframeInfo>)
    requires |order| < UnknownRank && SortedByRank(order, s)
    ensures SortedByRank(order, InsertByRank(order, x, s))
  {
    if s == [] || Key(order, x) <= Key(order, s[0]) {
      PrependSorted(order, x, s);
    } else {
      var tail := InsertByRank(order, x, s[1..]);
      assert SortedByRank(order, s[1..]) by {
        forall i, j | 0 <= i < j < |s[1..]| ensures Key(order, s[1..][i]) <= Key(order, s[1..][j]) {
          assert s[1..][i] == s[i + 1] && s[1..][j] == s[j + 1];
        }
      }
      InsertByRankSorted(order, x, s[1..]);
      if tail[0] != x {
        assert tail[0] == s[1];
        assert Key(order, s[0]) <= Key(order, s[1]);
      }
      PrependSorted(order, s[0], tail);
    }
  }

  /** The sorted list is ordered by rank. */
  lemma {:induction false} SortByRankSorted(order: seq<string>, s: seq<TimeframeInfo>)
    requires |order| < UnknownRank
    ensures SortedByRank(order, SortByRank(order, s))
  {
    if s != [] {
      SortByRankSorted(order, s[1..]);
      InsertByRankSorted(order, s[0], SortByRank(order, s[1..]));
    }
  }

  lemma {:induction false} WithRankInsert(order: seq<string>, x: TimeframeInfo, s: seq<TimeframeInfo>, k: nat)
    requires |order| < UnknownRank
    ensures WithRank(order, InsertByRank(order, x, s), k)
         == (if Key(order, x) == k then [x] else []) + WithRank(order, s, k)
  {
    var r := InsertByRank(order, x, s);
    if s == [] || Key(order, x) <= Key(order, s[0]) {
      assert r[0] == x && r[1..] == s;
    } else {
      var tail := InsertByRank(order, x, s[1..]);
      assert r[0] == s[0] && r[1..] == tail;
      WithRankInsert(order, x, s[1..], k);
      var head: seq<TimeframeInfo> := if Key(order, s[0]) == k then [s[0]] else [];
      assert WithRank(order, r, k) == head + WithRank(order, tail, k);
      assert WithRank(order, s, k) == head + WithRank(order, s[1..], k);
      if Key(order, x) == k {
        assert head == [];
      } else {
        assert WithRank(order, tail, k) == WithRank(order, s[1..], k);
      }
    }
  }

  /** Stability: among equal ranks the sorted list keeps the input order. */
  lemma {:induction false} SortByRankStable(order: seq<string>, s: seq<TimeframeInfo>, k: nat)
    requires |order| < UnknownRank
    ensures WithRank(order, SortByRank(order, s), k) == WithRank(order, s, k)
  {
    if s != [] {
      SortByRankStable(order, s[1..], k);
      WithRankInsert(order, s[0], SortByRank(order, s[1..]), k);
    }
  }

  lemma {:induction false} WithRankNonEmpty(order: seq<string>, s: seq<TimeframeInfo>, k: nat)
    requires |order| < UnknownRank && WithRank(order, s, k) != []
    ensures exists i :: 0 <= i < |s| && Key(order, s[i]) == k
  {
    if Key(order, s[0]) != k {
      WithRankNonEmpty(order, s[1..], k);
      var i :| 0 <= i < |s[1..]| && Key(order, s[1..][i]) == k;
      assert s[i + 1] == s[1..][i];
    }
  }

  lemma WithRankHead(order: seq<string>, s: seq<TimeframeInfo>, other: seq<TimeframeInfo>)
    requires |order| < UnknownRank && s != [] && other == []
    ensures WithRank(order, s, Key(order, s[0])) != WithRank(order, other, Key(order, s[0]))
  {
  }

  /** Two rank-sorted lists with the same elements of every rank start with elements of equal rank. */
  lemma HeadRanksEqual(order: seq<string>, a: seq<TimeframeInfo>, b: seq<TimeframeInfo>)
    requires |order| < UnknownRank && a != [] && b != []
    requires SortedByRank(order, a) && SortedByRank(order, b)
    requires WithRank(order, a, Key(order, a[0])) == WithRank(order, b, Key(order, a[0]))
    requires WithRank(order, a, Key(order, b[0])) == WithRank(order, b, Key(order, b[0]))
    ensures Key(order, a[0]) == Key(order, b[0])
  {
    var ka, kb := Key(order, a[0]), Key(order, b[0]);
    assert WithRank(order, a, ka) != [];
    WithRankNonEmpty(order, b, ka);
    var i :| 0 <= i < |b| && Key(order, b[i]) == ka;
    assert kb <= ka by { if i > 0 { assert Key(order, b[0]) <= Key(order, b[i]); } }
    assert WithRank(order, b, kb) != [];
    WithRankNonEmpty(order, a, kb);
    var j :| 0 <= j < |a| && Key(order, a[j]) == kb;
    assert ka <= kb by { if j > 0 { assert Key(order, a[0]) <= Key(order, a[j]); } }
  }

  /** Removing equal heads keeps the elements of every rank equal. */
  lemma TailsWithRankEqual(order: seq<string>, a: seq<TimeframeInfo>, b: seq<TimeframeInfo>, k: nat)
    requires |order| < UnknownRank && a != [] && b != [] && a[0] == b[0]
    requires WithRank(order, a, k) == WithRank(order, b, k)
    ensures WithRank(order, a[1..], k) == WithRank(order, b[1..], k)
  {
    var head: seq<TimeframeInfo> := if Key(order, a[0]) == k then [a[0]] else [];
    assert WithRank(order, a, k) == head + WithRank(order, a[1..], k);
    assert WithRank(order, b, k) == head + WithRank(order, b[1..], k);
    assert WithRank(order, a[1..], k) == WithRank(order, a, k)[|head|..];
    assert WithRank(order, b[1..], k) == WithRank(order, b, k)[|head|..];
  }

  /** Two rank-sorted lists with the same elements of every rank, in the same order, are equal. */
  lemma {:induction false} SortedByRankUnique(order: seq<string>, a: seq<TimeframeInfo>, b: seq<TimeframeInfo>)
    requires |order| < UnknownRank
    requires SortedByRank(order, a) && SortedByRank(order, b)
    requires forall k :: WithRank(order, a, k) == WithRank(order, b, k)
    ensures a == b
    decreases |a|
  {
    if a == [] || b == [] {
      // The first element of the non-empty one has a rank the empty one lacks.
      if a != [] {
        WithRankHead(order, a, b);
        assert false;
      }
      if b != [] {
        WithRankHead(order, b, a);
        assert false;
      }
    } else {
      HeadRanksEqual(order, a, b);
      var k := Key(order, a[0]);
      assert a[0] == WithRank(order, a, k)[0] == WithRank(order, b, k)[0] == b[0];
      forall k' ensures WithRank(order, a[1..], k') == WithRank(order, b[1..], k') {
        TailsWithRankEqual(order, a, b, k');
      }
      SortedByRankUnique(order, a[1..], b[1..]);
      assert a == [a[0]] + a[1..] && b == [b[0]] + b[1..];
    }
  }

  /**
   * `SortByRank` is the only rank-sorted rearrangement that keeps the input
   * order among equal ranks, so it is the result of any stable sort by rank.
   */
  lemma SortByRankIsTheStableSort(order: seq<string>, s: seq<TimeframeInfo>, t: seq<TimeframeInfo>)
    requires |order| < UnknownRank
    requires SortedByRank(order, t) && forall k :: WithRank(order, t, k) == WithRank(order, s, k)
    ensures t == SortByRank(order, s)
  {
    SortByRankSorted(order, s);
    forall k ensures WithRank(order, t, k) == WithRank(order, SortByRank(order, s), k) {
      SortByRankStable(order, s, k);
    }
    SortedByRankUnique(order, t, SortByRank(order, s));
  }

  /** Sorting an already sorted list changes nothing; in particular sorting twice equals sorting once. */
  lemma SortByRankOfSorted(order: seq<string>, s: seq<TimeframeInfo>)
    requires |order| < UnknownRank && SortedByRank(order, s)
    ensures SortByRank(order, s) == s
  {
    SortByRankIsTheStableSort(order, s, s);
  }

  /** In a rank-sorted list every listed code comes before every unlisted one. */
  lemma KnownBeforeUnknown(order: seq<string>, t: seq<TimeframeInfo>, i: nat, j: nat)
    requires |order| < UnknownRank && SortedByRank(order, t)
    requires i < |t| && j < |t| && t[i].name in order && t[j].name !in order
    ensures i < j
  {
  }

  lemma {:induction false} TotalCandlesInsert(order: seq<string>, x: TimeframeInfo, s: seq<TimeframeInfo>)
    requires |order| < UnknownRank
    ensures TotalCandles(InsertByRank(order, x, s)) == x.candleCount + TotalCandles(s)
  {
    var r := InsertByRank(order, x, s);
    if s == [] || Key(order, x) <= Key(order, s[0]) {
      assert r[1..] == s;
    } else {
      assert r[1..] == InsertByRank(order, x, s[1..]);
      TotalCandlesInsert(order, x, s[1..]);
    }
  }

  /** Sorting keeps the total candle count. */
  lemma {:induction false} TotalCandlesSort(order: seq<string>, s: seq<TimeframeInfo>)
    requires |order| < UnknownRank
    ensures TotalCandles(SortByRank(order, s)) == TotalCandles(s)
  {
    if s != [] {
      TotalCandlesSort(order, s[1..]);
      TotalCandlesInsert(order, s[0], SortByRank(order, s[1..]));
    }
  }
}
