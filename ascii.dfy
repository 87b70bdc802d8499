/**
 * ASCII text helpers shared by the model: case mapping, whitespace, prefix and
 * suffix trimming as Rust's `trim_start_matches` / `trim_end_matches` do it,
 * splitting on one character, joining, and decimal rendering of integers.
 * Case mapping and the alphanumeric test are restricted to ASCII.
 */
module Ascii {

  predicate IsLowerLetter(c: char) { 'a' <= c <= 'z' }

  predicate IsUpperLetter(c: char) { 'A' <= c <= 'Z' }

  predicate IsDigit(c: char) { '0' <= c <= '9' }

  predicate IsAlphanumeric(c: char) { IsLowerLetter(c) || IsUpperLetter(c) || IsDigit(c) }

  /**
   * Rust's `char::is_whitespace`: the characters with the Unicode
   * `White_Space` property.
   */
  predicate IsWhitespace(c: char)
  {
    || '\t' <= c <= '\r'
    || c == ' ' || c == '\U{0085}' || c == '\U{00A0}' || c == '\U{1680}'
    || '\U{2000}' <= c <= '\U{200A}'
    || c == '\U{2028}' || c == '\U{2029}' || c == '\U{202F}' || c == '\U{205F}' || c == '\U{3000}'
  }

  function UpperChar(c: char): (u: char)
    ensures !IsLowerLetter(u)
  {
    if IsLowerLetter(c) then (c as int - 32) as char else c
  }

  function LowerChar(c: char): (l: char)
    ensures !IsUpperLetter(l)
  {
    if IsUpperLetter(c) then (c as int + 32) as char else c
  }

  /** `to_uppercase` / `toUpperCase`, restricted to ASCII letters. */
  function ToUpper(s: string): (r: string)
    ensures |r| == |s|
    ensures forall i :: 0 <= i < |s| ==> r[i] == UpperChar(s[i])
  {
    seq(|s|, i requires 0 <= i < |s| => UpperChar(s[i]))
  }

  /** `to_lowercase` / `toLowerCase`, restricted to ASCII letters. */
  function ToLower(s: string): (r: string)
    ensures |r| == |s|
    ensures forall i :: 0 <= i < |s| ==> r[i] == LowerChar(s[i])
  {
    seq(|s|, i requires 0 <= i < |s| => LowerChar(s[i]))
  }

  lemma ToUpperIdempotent(s: string)
    ensures ToUpper(ToUpper(s)) == ToUpper(s)
  {
  }

  /** Upper-casing forgets the case the text was written in. */
  lemma ToUpperOfToLower(s: string)
    ensures ToUpper(ToLower(s)) == ToUpper(s)
  {
  }

  /** Lower-casing forgets the case the text was written in. */
  lemma ToLowerOfToUpper(s: string)
    ensures ToLower(ToUpper(s)) == ToLower(s)
  {
  }

  lemma ToUpperAppend(a: string, b: string)
    ensures ToUpper(a + b) == ToUpper(a) + ToUpper(b)
  {
  }

  /** A line is blank when `trim()` leaves nothing of it. */
  predicate IsBlank(s: string)
  {
    forall i :: 0 <= i < |s| ==> IsWhitespace(s[i])
  }

  predicate StartsWith(s: string, p: string)
  {
    |p| <= |s| && s[..|p|] == p
  }

  predicate EndsWith(s: string, p: string)
  {
    |p| <= |s| && s[|s| - |p|..] == p
  }

  /** `x` is whole copies of `p`, back to back (none at all included). */
  predicate Repeats(x: string, p: string)
    requires p != []
    decreases |x|
  {
    x == [] || (StartsWith(x, p) && Repeats(x[|p|..], p))
  }

  /** One more copy at the end still leaves whole copies. */
  lemma {:induction false} RepeatsAppend(x: string, p: string)
    requires p != [] && Repeats(x, p)
    ensures Repeats(x + p, p)
    decreases |x|
  {
    if x == [] {
      assert x + p == p && p[|p|..] == [];
    } else {
      RepeatsAppend(x[|p|..], p);
      assert (x + p)[..|p|] == x[..|p|];
      assert (x + p)[|p|..] == x[|p|..] + p;
    }
  }

  /**
   * Rust's `trim_start_matches(p)`: removes every leading repetition of `p`.
   * What is removed is whole copies of `p`; a text not starting with `p` is
   * left as it is.
   */
  function TrimStartMatches(s: string, p: string): (r: string)
    requires p != []
    ensures |r| <= |s| && r == s[|s| - |r|..]
    ensures Repeats(s[..|s| - |r|], p)
    ensures !StartsWith(r, p)
    ensures !StartsWith(s, p) ==> r == s
    decreases |s|
  {
    if StartsWith(s, p) then
      var t := s[|p|..];
      var r := TrimStartMatches(t, p);
      assert s[..|s| - |r|][..|p|] == p;
      assert s[..|s| - |r|][|p|..] == t[..|t| - |r|];
      r
    else s
  }

  /**
   * Rust's `trim_end_matches(p)`: removes every trailing repetition of `p`.
   * What is removed is whole copies of `p`; a text not ending with `p` is
   * left as it is.
   */
  function TrimEndMatches(s: string, p: string): (r: string)
    requires p != []
    ensures |r| <= |s| && r == s[..|r|]
    ensures Repeats(s[|r|..], p)
    ensures !EndsWith(r, p)
    ensures !EndsWith(s, p) ==> r == s
    decreases |s|
  {
    if EndsWith(s, p) then
      var t := s[..|s| - |p|];
      var r := TrimEndMatches(t, p);
      RepeatsAppend(t[|r|..], p);
      assert s[|r|..] == t[|r|..] + p;
      r
    else s
  }

  lemma EndsWithChar(s: string, c: char)
    ensures EndsWith(s, [c]) <==> s != [] && s[|s| - 1] == c
  {
    if s != [] {
      assert s[|s| - 1..] == [s[|s| - 1]];
    }
  }

  /** Trimming a one-character suffix stops at the first other character. */
  lemma {:induction false} TrimEndAppend(a: string, b: string, c: char)
    requires a != [] && a[|a| - 1] != c
    ensures TrimEndMatches(a + b, [c]) == a + TrimEndMatches(b, [c])
    decreases |b|
  {
    EndsWithChar(a + b, c);
    EndsWithChar(b, c);
    if b == [] {
      assert a + b == a;
      assert TrimEndMatches(b, [c]) == [];
    } else {
      assert (a + b)[|a + b| - 1] == b[|b| - 1];
      if b[|b| - 1] == c {
        assert (a + b)[..|a + b| - 1] == a + b[..|b| - 1];
        TrimEndAppend(a, b[..|b| - 1], c);
      }
    }
  }

  /** `s.split(sep)`: the pieces between separators, always at least one. */
  function Split(s: string, sep: char): (parts: seq<string>)
    ensures |parts| >= 1
    decreases |s|
  {
    if s == [] then [""]
    else
      var rest := Split(s[1..], sep);
      if s[0] == sep then [""] + rest
      else [[s[0]] + rest[0]] + rest[1..]
  }

  /** No piece of a split holds the separator. */
  lemma {:induction false} SplitPiecesFree(s: string, sep: char)
    ensures forall k :: 0 <= k < |Split(s, sep)| ==> sep !in Split(s, sep)[k]
    decreases |s|
  {
    if s != [] {
      SplitPiecesFree(s[1..], sep);
    }
  }

  lemma {:induction false} SplitNoSeparator(s: string, sep: char)
    requires sep !in s
    ensures Split(s, sep) == [s]
    decreases |s|
  {
    if s != [] {
      SplitNoSeparator(s[1..], sep);
      assert [s[0]] + s[1..] == s;
    }
  }

  /** There is more than one piece exactly when the separator occurs. */
  lemma {:induction false} SplitCount(s: string, sep: char)
    ensures |Split(s, sep)| == 1 <==> sep !in s
    decreases |s|
  {
    if s != [] {
      SplitCount(s[1..], sep);
      assert sep in s <==> s[0] == sep || sep in s[1..];
    }
  }

  /** The first piece ends at the first separator. */
  lemma {:induction false} SplitAtSeparator(a: string, b: string, sep: char)
    requires sep !in a
    ensures Split(a + [sep] + b, sep) == [a] + Split(b, sep)
    decreases |a|
  {
    var s := a + [sep] + b;
    if a == [] {
      assert s[1..] == b;
    } else {
      assert s[1..] == a[1..] + [sep] + b;
      SplitAtSeparator(a[1..], b, sep);
      assert [a[0]] + a[1..] == a;
    }
  }

  /** Array `join(sep)`: the parts with `sep` between consecutive ones. */
  function Join(parts: seq<string>, sep: string): (s: string)
    decreases |parts|
  {
    if |parts| == 0 then ""
    else if |parts| == 1 then parts[0]
    else parts[0] + sep + Join(parts[1..], sep)
  }

  /** Each line followed by the separator, as a file of terminated lines is written. */
  function Terminated(lines: seq<string>, sep: char): string
  {
    if lines == [] then "" else lines[0] + [sep] + Terminated(lines[1..], sep)
  }

  /** Splitting terminated lines gives the lines back, then the empty text after the last separator. */
  lemma {:induction false} SplitTerminated(lines: seq<string>, sep: char)
    requires forall k :: 0 <= k < |lines| ==> sep !in lines[k]
    ensures Split(Terminated(lines, sep), sep) == lines + [""]
    decreases |lines|
  {
    if lines != [] {
      SplitAtSeparator(lines[0], Terminated(lines[1..], sep), sep);
      SplitTerminated(lines[1..], sep);
      assert lines == [lines[0]] + lines[1..];
    }
  }

  /** Terminated lines split off the front of whatever follows them. */
  lemma {:induction false} SplitTerminatedThen(lines: seq<string>, rest: string, sep: char)
    requires forall k :: 0 <= k < |lines| ==> sep !in lines[k]
    ensures Split(Terminated(lines, sep) + rest, sep) == lines + Split(rest, sep)
    decreases |lines|
  {
    if lines == [] {
      assert Terminated(lines, sep) + rest == rest;
    } else {
      assert forall k :: 0 <= k < |lines[1..]| ==> sep !in lines[1..][k];
      SplitTerminatedThen(lines[1..], rest, sep);
      SplitTerminatedStep(lines[0], lines[1..], rest, sep);
      assert [lines[0]] + lines[1..] == lines;
    }
  }

  lemma SplitTerminatedStep(line: string, more: seq<string>, rest: string, sep: char)
    requires sep !in line
    requires Split(Terminated(more, sep) + rest, sep) == more + Split(rest, sep)
    ensures Split(Terminated([line] + more, sep) + rest, sep) == [line] + more + Split(rest, sep)
  {
    var tail := Terminated(more, sep) + rest;
    assert ([line] + more)[1..] == more;
    assert Terminated([line] + more, sep) + rest == line + [sep] + tail;
    SplitAtSeparator(line, tail, sep);
  }

  /** Round trip: splitting a join at its one-character separator gives back the parts. */
  lemma {:induction false} SplitJoin(parts: seq<string>, sep: char)
    requires |parts| >= 1 && forall i :: 0 <= i < |parts| ==> sep !in parts[i]
    ensures Split(Join(parts, [sep]), sep) == parts
    decreases |parts|
  {
    if |parts| == 1 {
      SplitNoSeparator(parts[0], sep);
    } else {
      SplitJoin(parts[1..], sep);
      SplitAtSeparator(parts[0], Join(parts[1..], [sep]), sep);
      assert [parts[0]] + parts[1..] == parts;
    }
  }

  /** A joined text holds only the parts' characters and the separator. */
  lemma {:induction false} JoinChars(parts: seq<string>, sep: char, c: char)
    requires c != sep && forall i :: 0 <= i < |parts| ==> c !in parts[i]
    ensures c !in Join(parts, [sep])
    decreases |parts|
  {
    if |parts| > 1 {
      JoinChars(parts[1..], sep, c);
    }
  }

  function DigitChar(d: nat): (c: char)
    requires d < 10
    ensures IsDigit(c)
  {
    ('0' as int + d) as char
  }

  /** The decimal rendering of a natural number, as Rust's `to_string` gives it. */
  function NatToString(n: nat): (s: string)
    ensures s != []
    ensures forall i :: 0 <= i < |s| ==> IsDigit(s[i])
  {
    if n < 10 then [DigitChar(n)] else NatToString(n / 10) + [DigitChar(n % 10)]
  }

  /** The decimal rendering of an integer: a minus sign, then digits. */
  function IntToString(n: int): (s: string)
    ensures s != []
    ensures forall i :: 0 <= i < |s| ==> IsDigit(s[i]) || s[i] == '-'
  {
    if n < 0 then "-" + NatToString(-n) else NatToString(n)
  }

  function DigitValue(c: char): (v: nat)
    requires IsDigit(c)
    ensures v < 10
  {
    (c as int) - ('0' as int)
  }

  predicate AllDigits(s: string)
  {
    forall i :: 0 <= i < |s| ==> IsDigit(s[i])
  }

  /** The value of a run of decimal digits, most significant first. */
  function DigitsValue(s: string): (v: nat)
    requires AllDigits(s)
  {
    if s == [] then 0 else DigitsValue(s[..|s| - 1]) * 10 + DigitValue(s[|s| - 1])
  }

  function Pow10(k: nat): (p: nat)
    ensures p >= 1
  {
    if k == 0 then 1 else 10 * Pow10(k - 1)
  }

  lemma {:induction false} DigitsValueBound(s: string)
    requires AllDigits(s)
    ensures DigitsValue(s) < Pow10(|s|)
    decreases |s|
  {
    if s != [] {
      DigitsValueBound(s[..|s| - 1]);
    }
  }

  /** Reading back a rendered natural number gives the number. */
  lemma {:induction false} NatToStringValue(n: nat)
    ensures AllDigits(NatToString(n)) && DigitsValue(NatToString(n)) == n
    decreases n
  {
    var s := NatToString(n);
    if n >= 10 {
      NatToStringValue(n / 10);
      assert s[..|s| - 1] == NatToString(n / 10);
    }
  }
}
