/**
 * Text conventions the API relies on: decimal numerals as Python's str()
 * and JavaScript's String() print them, Python's int() parsing of a query
 * parameter, the ISO-8601 date forms, and the binary string order MongoDB
 * uses for range comparisons on strings.
 */
module Text {
  import opened Wrappers

  predicate IsDigit(c: char) {
    '0' <= c <= '9'
  }

  function DigitValue(c: char): (d: nat)
    requires IsDigit(c)
    ensures d < 10
  {
    (c as int) - ('0' as int)
  }

  function DigitChar(d: nat): (c: char)
    requires d < 10
    ensures IsDigit(c) && DigitValue(c) == d
  {
    (('0' as int) + d) as char
  }

  predicate AllDigits(s: string) {
    forall i :: 0 <= i < |s| ==> IsDigit(s[i])
  }

  // ---------------------------------------------------------------------
  // Printing integers

  /** The decimal numeral of n, without leading zeros. */
  function NatToString(n: nat): (s: string)
    ensures s != [] && AllDigits(s)
  {
    if n < 10 then [DigitChar(n)] else NatToString(n / 10) + [DigitChar(n % 10)]
  }

  /** str(n) in Python, String(n) in JavaScript (for integers below 10^21). */
  function IntToString(n: int): (s: string)
    ensures s != [] && s[0] != '_' && s[|s| - 1] != '_'
    ensures IsDigit(s[|s| - 1])
  {
    if n < 0 then "-" + NatToString(-n) else NatToString(n)
  }

  // ---------------------------------------------------------------------
  // Python's int() on a string

  /** A numeral made of digits and underscores; underscores are skipped. */
  predicate IsNumeralChars(s: string) {
    forall i :: 0 <= i < |s| ==> IsDigit(s[i]) || s[i] == '_'
  }

  function NumeralValue(s: string): nat
    requires IsNumeralChars(s)
  {
    if s == [] then 0
    else if s[|s| - 1] == '_' then NumeralValue(s[..|s| - 1])
    else NumeralValue(s[..|s| - 1]) * 10 + DigitValue(s[|s| - 1])
  }

  /**
   * The digits int() accepts after the sign: at least one digit, and single
   * underscores allowed only between two digits ("1_000").
   */
  predicate IsDecimalBody(s: string) {
    && s != []
    && IsDigit(s[0]) && IsDigit(s[|s| - 1])
    && IsNumeralChars(s)
    && (forall i :: 0 <= i < |s| - 1 ==> !(s[i] == '_' && s[i + 1] == '_'))
  }

  /** The six ASCII whitespace characters int() strips from a numeral. */
  predicate IsSpace(c: char) {
    c == ' ' || c == '\t' || c == '\n' || c == '\r' || c == '\U{B}' || c == '\U{C}'
  }

  function TrimStart(s: string): string {
    if s != [] && IsSpace(s[0]) then TrimStart(s[1..]) else s
  }

  function TrimEnd(s: string): string {
    if s != [] && IsSpace(s[|s| - 1]) then TrimEnd(s[..|s| - 1]) else s
  }

  /** `s.strip()`: the part of s between its leading and trailing whitespace. */
  function Strip(s: string): string {
    TrimEnd(TrimStart(s))
  }

  /** Trimming the front leaves a suffix that does not start with whitespace. */
  lemma {:induction false} TrimStartSuffix(s: string)
    ensures |TrimStart(s)| <= |s| && TrimStart(s) == s[|s| - |TrimStart(s)|..]
    ensures TrimStart(s) == [] || !IsSpace(TrimStart(s)[0])
  {
    if s != [] && IsSpace(s[0]) {
      TrimStartSuffix(s[1..]);
    }
  }

  /** Trimming the back leaves a prefix that does not end with whitespace. */
  lemma {:induction false} TrimEndPrefix(s: string)
    ensures |TrimEnd(s)| <= |s| && TrimEnd(s) == s[..|TrimEnd(s)|]
    ensures TrimEnd(s) == [] || !IsSpace(TrimEnd(s)[|TrimEnd(s)| - 1])
  {
    if s != [] && IsSpace(s[|s| - 1]) {
      TrimEndPrefix(s[..|s| - 1]);
    }
  }

  /** Stripping only removes characters, and leaves no whitespace at either end. */
  lemma StripMeaning(s: string)
    ensures forall c :: c in Strip(s) ==> c in s
    ensures Strip(s) == [] || (!IsSpace(Strip(s)[0]) && !IsSpace(Strip(s)[|Strip(s)| - 1]))
  {
    var t := TrimStart(s);
    TrimStartSuffix(s);
    TrimEndPrefix(t);
    var r := Strip(s);
    assert forall c :: c in r ==> c in t;
    assert forall c :: c in t ==> c in s;
    if r != [] {
      assert r[0] == t[0];
    }
  }

  /** The number of digits of a numeral; underscores do not count. */
  function DigitCount(s: string): nat {
    if s == [] then 0 else DigitCount(s[..|s| - 1]) + (if IsDigit(s[|s| - 1]) then 1 else 0)
  }

  /** `sys.int_info.default_max_str_digits`: int() refuses numerals with more digits. */
  const MaxStrDigits: nat := 4300

  /**
   * int(s) for a str s: Some(value), or None where Python raises ValueError,
   * which includes a numeral of more than MaxStrDigits digits.
   */
  function ParsePyInt(s: string): (r: Option<int>)
  {
    var t := Strip(s);
    if t != [] && (t[0] == '+' || t[0] == '-') then
      var body := t[1..];
      if IsDecimalBody(body) && DigitCount(body) <= MaxStrDigits then
        var v: int := NumeralValue(body);
        Some(if t[0] == '-' then -v else v)
      else None
    else if IsDecimalBody(t) && DigitCount(t) <= MaxStrDigits then Some(NumeralValue(t))
    else None
  }

  /** A string holding no digit at all never parses: int() raises. */
  lemma NoDigitNoInt(s: string)
    requires forall i :: 0 <= i < |s| ==> !IsDigit(s[i])
    ensures ParsePyInt(s) == None
  {
    StripMeaning(s);
    var t := Strip(s);
    assert forall c :: c in t ==> !IsDigit(c);
    if |t| > 1 {
      assert t[1] in t;
    }
  }

  /**
   * A string whose first character is neither whitespace int() strips, nor
   * a sign, nor a digit never parses: int() raises. Control characters such
   * as '\U{1C}' are not stripped, so "\U{1C}5" is refused.
   */
  lemma LeadingJunkNoInt(s: string)
    requires s != [] && !IsSpace(s[0]) && s[0] != '+' && s[0] != '-' && !IsDigit(s[0])
    ensures ParsePyInt(s) == None
  {
    assert TrimStart(s) == s;
    TrimEndPrefix(s);
    var t := Strip(s);
    if t != [] {
      assert t[0] == s[0];
    }
  }

  lemma {:induction false} NatToStringValue(n: nat)
    ensures NumeralValue(NatToString(n)) == n
  {
    if n >= 10 {
      NatToStringValue(n / 10);
      var s := NatToString(n);
      assert s[..|s| - 1] == NatToString(n / 10);
    }
  }

  /** A run of plain digits is a numeral int() reads, and every character of it counts as a digit. */
  lemma {:induction false} DigitsAreBody(s: string)
    requires s != [] && AllDigits(s)
    ensures IsDecimalBody(s) && DigitCount(s) == |s|
  {
    if |s| > 1 {
      DigitsAreBody(s[..|s| - 1]);
    }
  }

  /**
   * int() of a numeral of plain digits, optionally after a '-': its value,
   * or an error when it has more than MaxStrDigits digits.
   */
  lemma ParseNumeral(s: string, digits: string)
    requires digits != [] && AllDigits(digits)
    requires s == digits || s == "-" + digits
    ensures |digits| <= MaxStrDigits ==>
              ParsePyInt(s) == Some(if s == digits then NumeralValue(digits) as int else -(NumeralValue(digits) as int))
    ensures |digits| > MaxStrDigits ==> ParsePyInt(s) == None
  {
    DigitsAreBody(digits);
    assert Strip(s) == s by {
      assert !IsSpace(s[0]) && TrimStart(s) == s;
      assert IsDigit(s[|s| - 1]) && TrimEnd(s) == s;
    }
    if s == digits {
      assert IsDigit(s[0]);
    } else {
      assert s[0] == '-' && s[1..] == digits;
    }
  }

  /**
   * Printing an integer and parsing it back with int() gives the integer,
   * as long as its numeral has at most MaxStrDigits digits; a longer one is
   * refused.
   */
  lemma ParseIntRoundTrip(n: int)
    ensures |NatToString(if n < 0 then -n else n)| <= MaxStrDigits ==> ParsePyInt(IntToString(n)) == Some(n)
    ensures |NatToString(if n < 0 then -n else n)| > MaxStrDigits ==> ParsePyInt(IntToString(n)) == None
  {
    var m: nat := if n < 0 then -n else n;
    NatToStringValue(m);
    ParseNumeral(IntToString(n), NatToString(m));
  }

  /** The label "lo-hi" of a range of integers, as both the API and the dashboard print it. */
  function RangeLabel(lo: nat, hi: nat): string {
    IntToString(lo) + "-" + IntToString(hi)
  }

  /** The label is two decimal numerals around the first '-': the one before reads lo, the one after reads hi. */
  lemma RangeLabelReads(lo: nat, hi: nat)
    ensures var k := |NatToString(lo)|;
            && k < |RangeLabel(lo, hi)| && RangeLabel(lo, hi)[k] == '-' && '-' !in RangeLabel(lo, hi)[..k]
            && AllDigits(RangeLabel(lo, hi)[..k]) && NumeralValue(RangeLabel(lo, hi)[..k]) == lo
            && AllDigits(RangeLabel(lo, hi)[k + 1..]) && NumeralValue(RangeLabel(lo, hi)[k + 1..]) == hi
  {
    var l := RangeLabel(lo, hi);
    assert l[..|NatToString(lo)|] == NatToString(lo);
    assert l[|NatToString(lo)| + 1..] == NatToString(hi);
    NatToStringValue(lo);
    NatToStringValue(hi);
  }

  /**
   * The label names the range for Python too: the text before the first '-'
   * parses back to lo and the text after it to hi with int(). (str() refuses
   * to print a numeral longer than int() accepts, so no other label exists.)
   */
  lemma RangeLabelParses(lo: nat, hi: nat)
    requires |NatToString(lo)| <= MaxStrDigits && |NatToString(hi)| <= MaxStrDigits
    ensures var k := |IntToString(lo)|;
            && k < |RangeLabel(lo, hi)| && RangeLabel(lo, hi)[k] == '-' && '-' !in RangeLabel(lo, hi)[..k]
            && ParsePyInt(RangeLabel(lo, hi)[..k]) == Some(lo)
            && ParsePyInt(RangeLabel(lo, hi)[k + 1..]) == Some(hi)
  {
    var l := RangeLabel(lo, hi);
    assert l[..|IntToString(lo)|] == IntToString(lo);
    assert l[|IntToString(lo)| + 1..] == IntToString(hi);
    ParseIntRoundTrip(lo);
    ParseIntRoundTrip(hi);
  }

  // ---------------------------------------------------------------------
  // ISO-8601 dates

  /** "YYYY-MM-DD" with digits in the numeric positions. */
  predicate IsDateShape(s: string) {
    |s| == 10 && s[4] == '-' && s[7] == '-'
    && AllDigits(s[..4]) && AllDigits(s[5..7]) && AllDigits(s[8..])
  }

  function YearOf(s: string): nat
    requires IsDateShape(s)
  {
    NumeralValue(s[..4])
  }

  function MonthOf(s: string): nat
    requires IsDateShape(s)
  {
    NumeralValue(s[5..7])
  }

  function DayOf(s: string): nat
    requires IsDateShape(s)
  {
    NumeralValue(s[8..])
  }

  predicate IsLeapYear(y: int) {
    y % 4 == 0 && (y % 100 != 0 || y % 400 == 0)
  }

  function DaysInMonth(y: int, m: int): (d: int)
    requires 1 <= m <= 12
    ensures 28 <= d <= 31
  {
    if m == 2 then (if IsLeapYear(y) then 29 else 28)
    else if m == 4 || m == 6 || m == 9 || m == 11 then 30
    else 31
  }

  /** A "YYYY-MM-DD" string naming a day of the proleptic Gregorian calendar. */
  predicate IsCalendarDate(s: string) {
    IsDateShape(s) && 1 <= MonthOf(s) <= 12 && 1 <= DayOf(s) <= DaysInMonth(YearOf(s), MonthOf(s))
  }

  /** "HH:MM" or "HH:MM:SS" on a 24-hour clock. */
  predicate IsClockTime(t: string) {
    && (|t| == 5 || (|t| == 8 && t[5] == ':' && AllDigits(t[6..8]) && NumeralValue(t[6..8]) < 60))
    && t[2] == ':' && AllDigits(t[..2]) && AllDigits(t[3..5])
    && NumeralValue(t[..2]) < 24 && NumeralValue(t[3..5]) < 60
  }

  /**
   * Strings datetime.fromisoformat accepts, as far as the model goes: a
   * calendar date in years 1..9999, alone or followed by one separator
   * character and a clock time.
   */
  predicate IsIsoDateTime(s: string) {
    && |s| >= 10 && IsCalendarDate(s[..10]) && YearOf(s[..10]) >= 1
    && (|s| == 10 || (|s| > 11 && IsClockTime(s[11..])))
  }

  // ---------------------------------------------------------------------
  // String order

  /** Binary (code point) order on strings, as MongoDB compares them. */
  predicate LexLe(a: string, b: string)
    decreases |a|
  {
    a == [] || (b != [] && (a[0] < b[0] || (a[0] == b[0] && LexLe(a[1..], b[1..]))))
  }
}
