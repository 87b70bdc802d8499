/**
 * The two number syntaxes the local-folder validator relies on: Rust's
 * `str::parse::<i64>` (an optional sign, then decimal digits, within the
 * 64-bit range) and `str::parse::<f64>`, whose accepted texts follow the
 * grammar documented for `f64`'s `FromStr`:
 *
 *   Float  ::= Sign? ( 'inf' | 'infinity' | 'nan' | Number )
 *   Number ::= ( Digit+ | Digit+ '.' Digit* | Digit* '.' Digit+ ) Exp?
 *   Exp    ::= 'e' Sign? Digit+
 *
 * read case-insensitively, which `Scan` recognises one character at a time.
 * Only acceptance is modelled for `f64`, not the value it rounds to.
 */
module NumberSyntax {
  import opened Wrappers
  import opened Ascii

  const I64Min: int := -0x8000_0000_0000_0000
  const I64Max: int := 0x7FFF_FFFF_FFFF_FFFF

  predicate IsSign(c: char) { c == '+' || c == '-' }

  /** The text after an optional leading sign. */
  function Unsigned(s: string): (u: string)
    ensures |u| <= |s| && u == s[|s| - |u|..]
  {
    if s != [] && IsSign(s[0]) then s[1..] else s
  }

  /** `s.parse::<i64>().ok()`. */
  function ParseI64(s: string): (r: Option<int>)
    ensures r.Some? ==> I64Min <= r.value <= I64Max
    ensures r.Some? ==> Unsigned(s) != [] && AllDigits(Unsigned(s))
    ensures r.Some? && r.value < 0 ==> s[0] == '-'
  {
    var digits := Unsigned(s);
    if digits == [] || !AllDigits(digits) then None
    else
      var v: int := if s[0] == '-' then -(DigitsValue(digits) as int) else DigitsValue(digits);
      if I64Min <= v <= I64Max then Some(v) else None
  }

  lemma ParseDigits(s: string)
    requires s != [] && AllDigits(s) && DigitsValue(s) <= I64Max
    ensures ParseI64(s) == Some(DigitsValue(s))
  {
    assert !IsSign(s[0]) && Unsigned(s) == s;
  }

  lemma ParseNegativeDigits(d: string)
    requires d != [] && AllDigits(d) && DigitsValue(d) <= -I64Min
    ensures ParseI64("-" + d) == Some(-(DigitsValue(d) as int))
  {
    var s := "-" + d;
    assert s[0] == '-' && Unsigned(s) == d;
  }

  /** Round trip: the decimal rendering of every 64-bit integer parses back to it. */
  lemma ParseIntToString(n: int)
    requires I64Min <= n <= I64Max
    ensures ParseI64(IntToString(n)) == Some(n)
  {
    if n < 0 {
      NatToStringValue(-n);
      ParseNegativeDigits(NatToString(-n));
    } else {
      NatToStringValue(n);
      ParseDigits(NatToString(n));
    }
  }

  /** One past the largest 64-bit integer is refused, although it is all digits. */
  lemma I64Overflow()
    ensures ParseI64(NatToString(I64Max + 1)) == None
  {
    NatToStringValue(I64Max + 1);
    assert !IsSign(NatToString(I64Max + 1)[0]);
  }

  /** Where the `f64` scanner stands in the grammar. */
  datatype FloatState =
    | Start       // nothing read yet
    | Signed      // the leading sign
    | Whole       // digits, no point yet
    | BarePoint   // a point with no digit before it
    | Fraction    // a point with a digit before or after it
    | ExpMark     // the `e`
    | ExpSign     // the exponent's sign
    | ExpDigits   // the exponent's digits

  /** The states in which the text read so far is a complete number. */
  predicate Accepting(st: FloatState)
  {
    st == Whole || st == Fraction || st == ExpDigits
  }

  /** The first character of a number: a digit or a point. */
  function BodyStart(c: char): Option<FloatState>
  {
    if IsDigit(c) then Some(Whole) else if c == '.' then Some(BarePoint) else None
  }

  /** The state after reading the lower-cased character `c`, if the grammar allows it. */
  function Next(st: FloatState, c: char): Option<FloatState>
  {
    match st
    case Start => if IsSign(c) then Some(Signed) else BodyStart(c)
    case Signed => BodyStart(c)
    case Whole =>
      if IsDigit(c) then Some(Whole) else if c == '.' then Some(Fraction) else if c == 'e' then Some(ExpMark) else None
    case BarePoint => if IsDigit(c) then Some(Fraction) else None
    case Fraction => if IsDigit(c) then Some(Fraction) else if c == 'e' then Some(ExpMark) else None
    case ExpMark => if IsSign(c) then Some(ExpSign) else if IsDigit(c) then Some(ExpDigits) else None
    case ExpSign => if IsDigit(c) then Some(ExpDigits) else None
    case ExpDigits => if IsDigit(c) then Some(ExpDigits) else None
  }

  predicate IsSpecialWord(w: string)
  {
    w == "inf" || w == "infinity" || w == "nan"
  }

  /**
   * Whether the rest `s` completes a float from state `st`: a special word
   * right after the optional sign, or characters the grammar allows ending
   * in an accepting state. Letters are read lower-cased.
   */
  predicate Scan(st: FloatState, s: string)
    decreases |s|
  {
    || ((st == Start || st == Signed) && IsSpecialWord(ToLower(s)))
    || (if s == [] then Accepting(st)
        else match Next(st, LowerChar(s[0]))
          case None => false
          case Some(next) => Scan(next, s[1..]))
  }

  /** `s.parse::<f64>().is_ok()`. */
  predicate IsF64Text(s: string)
  {
    Scan(Start, s)
  }

  /** A text that begins with a digit, a point or a sign is no special word. */
  lemma NotSpecialWord(s: string)
    requires s != [] && (IsDigit(s[0]) || s[0] == '.' || IsSign(s[0]))
    ensures !IsSpecialWord(ToLower(s))
  {
    assert ToLower(s)[0] == s[0];
  }

  /** The grammar ignores letter case. */
  lemma {:induction false} ScanCaseInsensitive(st: FloatState, s: string)
    ensures Scan(st, ToUpper(s)) == Scan(st, s)
    decreases |s|
  {
    ToLowerOfToUpper(s);
    if s != [] {
      assert ToUpper(s)[1..] == ToUpper(s[1..]);
      assert LowerChar(ToUpper(s)[0]) == LowerChar(s[0]);
      var next := Next(st, LowerChar(s[0]));
      if next.Some? {
        ScanCaseInsensitive(next.value, s[1..]);
      }
    }
  }

  lemma F64CaseInsensitive(s: string)
    ensures IsF64Text(ToUpper(s)) == IsF64Text(s)
  {
    ScanCaseInsensitive(Start, s);
  }

  /** In a state that loops on digits, a run of digits leaves the state unchanged. */
  lemma {:induction false} DigitsStay(st: FloatState, d: string, rest: string)
    requires st == Whole || st == Fraction || st == ExpDigits
    requires AllDigits(d)
    ensures Scan(st, d + rest) == Scan(st, rest)
    decreases |d|
  {
    if d == [] {
      assert d + rest == rest;
    } else {
      assert (d + rest)[0] == d[0] && (d + rest)[1..] == d[1..] + rest;
      assert IsDigit(d[0]) && LowerChar(d[0]) == d[0];
      assert Next(st, d[0]) == Some(st);
      DigitsStay(st, d[1..], rest);
    }
  }

  /** Digits, after an optional sign, make a float. */
  lemma DigitsAccepted(st: FloatState, d: string)
    requires st == Start || st == Signed
    requires d != [] && AllDigits(d)
    ensures Scan(st, d)
  {
    NotSpecialWord(d);
    DigitsStay(Whole, d[1..], []);
    assert d[1..] + [] == d[1..];
  }

  /** Every text `parse::<i64>` accepts is accepted by `parse::<f64>` as well. */
  lemma I64TextIsF64(s: string)
    requires ParseI64(s).Some?
    ensures IsF64Text(s)
  {
    var u := Unsigned(s);
    if IsSign(s[0]) {
      NotSpecialWord(s);
      DigitsAccepted(Signed, u);
    } else {
      DigitsAccepted(Start, s);
    }
  }

  /** Decimal text with a point, such as `1.25`, `7.` or `.5`, is accepted. */
  lemma DecimalAccepted(a: string, b: string)
    requires AllDigits(a) && AllDigits(b) && a + b != []
    ensures IsF64Text(a + "." + b)
  {
    var s := a + "." + b;
    NotSpecialWord(s);
    DigitsStay(Fraction, b, []);
    assert b + [] == b;
    if a != [] {
      assert s[1..] == a[1..] + ("." + b);
      DigitsStay(Whole, a[1..], "." + b);
      assert ("." + b)[1..] == b;
    } else {
      assert s[1..] == b;
      assert b[1..] + [] == b[1..];
      DigitsStay(Fraction, b[1..], []);
    }
  }

  /** The special values, in any case and with a sign. */
  lemma SpecialValuesAccepted()
    ensures IsF64Text("inf") && IsF64Text("-Infinity") && IsF64Text("+NaN")
  {
    assert ToLower("inf") == "inf";
    assert ToLower("Infinity") == "infinity";
    assert ToLower("NaN") == "nan";
    assert "-Infinity"[1..] == "Infinity";
    assert "+NaN"[1..] == "NaN";
  }

  /** Scientific notation with a signed exponent. */
  lemma ScientificAccepted()
    ensures IsF64Text("1.5E-3")
  {
    NotSpecialWord("1.5E-3");
  }

  /** A lone point has no digit. */
  lemma PointAloneRefused()
    ensures !IsF64Text(".")
  {
    NotSpecialWord(".");
  }

  /** An exponent needs a mantissa before it: no text starting with `e` or `E` is a float. */
  lemma ExponentAloneRefused(s: string)
    requires s != [] && (s[0] == 'e' || s[0] == 'E')
    ensures !IsF64Text(s)
  {
    assert ToLower(s)[0] == 'e';
  }

  /** An exponent needs digits: digits followed by a bare `e` are no float. */
  lemma EmptyExponentRefused(d: string)
    requires d != [] && AllDigits(d)
    ensures !IsF64Text(d + "e")
  {
    var s := d + "e";
    NotSpecialWord(s);
    assert s[1..] == d[1..] + "e";
    DigitsStay(Whole, d[1..], "e");
    assert "e"[1..] == [];
  }

  /** Surrounding whitespace is not trimmed: no text starting with whitespace is a float. */
  lemma LeadingSpaceRefused(s: string)
    requires s != [] && IsWhitespace(s[0])
    ensures !IsF64Text(s)
  {
    assert ToLower(s)[0] == s[0];
  }

  /** The empty text is no number. */
  lemma EmptyRefused()
    ensures !IsF64Text("")
  {
    assert ToLower("") == "";
  }
}
