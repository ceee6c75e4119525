/**
 * Candle interval strings such as "1m", "15m", "4h" or "1d": a decimal count followed by
 * a unit letter. The aggregator and the Gemini data provider each carry the same
 * `_interval_to_seconds`; it is defined once here.
 */
module Intervals {
  import opened Common

  predicate IsDigit(c: char) { '0' <= c <= '9' }

  predicate AllDigits(s: string) { forall i :: 0 <= i < |s| ==> IsDigit(s[i]) }

  function DigitValue(c: char): nat
    requires IsDigit(c)
  {
    (c as int) - ('0' as int)
  }

  function DigitChar(d: nat): (c: char)
    requires d < 10
    ensures IsDigit(c) && DigitValue(c) == d
  {
    ('0' as int + d) as char
  }

  /** The value of a string of decimal digits, most significant first. */
  function DigitsValue(s: string): nat
    requires AllDigits(s)
  {
    if s == [] then 0 else 10 * DigitsValue(s[..|s| - 1]) + DigitValue(s[|s| - 1])
  }

  /**
   * The characters `str.strip()` and `int()` treat as whitespace among the first 256:
   * space, tab, line feed, vertical tab, form feed, carriage return, the four separators
   * 0x1C-0x1F, next line (0x85) and no-break space (0xA0).
   */
  predicate IsSpace(c: char)
  {
    c == ' ' || '\t' <= c <= '\r' || '\U{1C}' <= c <= '\U{1F}' || c == '\U{85}' || c == '\U{A0}'
  }

  /**
   * The value of `s` when it is a numeral as `int()` accepts one: decimal digits, with
   * single underscores allowed between two digits ("1_000" is a numeral; "_1", "1_" and
   * "1__0" are not). Read from the right: the last character is a digit, and one
   * underscore before it separates it from the numeral in front.
   */
  function NumeralValue(s: string): Option<nat>
  {
    if |s| == 0 || !IsDigit(s[|s| - 1]) then None
    else if |s| == 1 then Some(DigitValue(s[0]))
    else
      var init := s[..|s| - 1];
      var front := if init[|init| - 1] == '_' then init[..|init| - 1] else init;
      match NumeralValue(front)
      case None => None
      case Some(v) => Some(10 * v + DigitValue(s[|s| - 1]))
  }

  /** An optional sign and a numeral, with nothing around them. */
  function ParseSigned(t: string): Option<int>
  {
    if |t| >= 2 && (t[0] == '-' || t[0] == '+') then
      match NumeralValue(t[1..])
      case None => None
      case Some(v) => Some(if t[0] == '-' then 0 - v as int else v as int)
    else
      match NumeralValue(t)
      case None => None
      case Some(v) => Some(v as int)
  }

  /**
   * Python's `int(s)` for a string: the whitespace around the text is stripped, one
   * character at a time from either end, then an optional sign and a numeral must make up
   * the rest.
   */
  function ParseInt(s: string): Option<int>
  {
    if |s| > 0 && IsSpace(s[0]) then ParseInt(s[1..])
    else if |s| > 0 && IsSpace(s[|s| - 1]) then ParseInt(s[..|s| - 1])
    else ParseSigned(s)
  }

  /** The decimal digits of `n`, as Python's `str(n)` writes them. */
  function DecimalString(n: nat): (s: string)
    ensures |s| > 0 && AllDigits(s)
  {
    if n < 10 then [DigitChar(n)] else DecimalString(n / 10) + [DigitChar(n % 10)]
  }

  /** `str(n)` for any integer. */
  function IntString(n: int): string
  {
    if n < 0 then "-" + DecimalString(-n) else DecimalString(n)
  }

  lemma {:induction false} DecimalStringValue(n: nat)
    ensures DigitsValue(DecimalString(n)) == n
  {
    if n >= 10 {
      var s := DecimalString(n);
      DecimalStringValue(n / 10);
      assert s[..|s| - 1] == DecimalString(n / 10);
    }
  }

  /** A string of digits is a numeral whose value is its digits' value. */
  lemma {:induction false} DigitsNumeral(s: string)
    requires |s| > 0 && AllDigits(s)
    ensures NumeralValue(s) == Some(DigitsValue(s))
  {
    if |s| > 1 {
      DigitsNumeral(s[..|s| - 1]);
    }
  }

  /** `int(str(n)) == n`: the parser reads back every integer it is given in decimal. */
  lemma ParseIntString(n: int)
    ensures ParseInt(IntString(n)) == Some(n)
  {
    var s := IntString(n);
    if n < 0 {
      DecimalStringValue(-n);
      assert s[1..] == DecimalString(-n);
      DigitsNumeral(s[1..]);
      assert !IsSpace(s[0]) && !IsSpace(s[|s| - 1]) by {
        assert s[|s| - 1] == s[1..][|s[1..]| - 1];
      }
    } else {
      DecimalStringValue(n);
      DigitsNumeral(s);
    }
  }

  /** Whitespace before or after the text never changes what `int()` reads. */
  lemma {:induction false} ParseIntIgnoresSpace(s: string, c: char)
    requires IsSpace(c)
    ensures ParseInt([c] + s) == ParseInt(s) && ParseInt(s + [c]) == ParseInt(s)
  {
    assert ([c] + s)[1..] == s;
    if s == [] {
      assert [c][1..] == [];
    } else if IsSpace(s[0]) {
      assert (s + [c])[1..] == s[1..] + [c];
      ParseIntIgnoresSpace(s[1..], c);
    } else {
      assert (s + [c])[..|s|] == s;
    }
  }

  /** Underscores between digits are dropped. */
  lemma ParseIntUnderscores()
    ensures ParseInt("1_000") == Some(1000)
  {
    var t := "1_000";
    assert NumeralValue("1") == Some(1);
    assert t[..2][..1] == "1" && NumeralValue(t[..3]) == Some(10);
    assert t[..4][..3] == t[..3] && NumeralValue(t[..4]) == Some(100);
    assert t[..4] == t[..|t| - 1];
  }

  /** A doubled, leading or trailing underscore is refused. */
  lemma ParseIntBadUnderscores()
    ensures ParseInt("1__0") == None && ParseInt("1_") == None && ParseInt("_1") == None
  {
    assert "1__0"[..3][..2] == "1_";
    assert "_1"[..1][..0] == "";
  }

  /** Padding around the text and a sign in front of it are read. */
  lemma ParseIntPaddedSigned()
    ensures ParseInt(" -7\n") == Some(-7)
  {
    assert " -7\n"[1..] == "-7\n";
    assert "-7\n"[..2] == "-7";
    assert "-7"[1..] == "7";
  }

  /** Seconds per unit letter; `None` for a letter the parser rejects. */
  function UnitSeconds(unit: char): Option<nat>
  {
    if unit == 'm' then Some(60)
    else if unit == 'h' then Some(60 * 60)
    else if unit == 'd' then Some(24 * 60 * 60)
    else None
  }

  /**
   * `_interval_to_seconds`: the last character is the unit, everything before it is
   * parsed with `int()`. The string is parsed on every call, so a malformed interval
   * is only noticed when an event reaches the aggregator that carries it.
   */
  function IntervalToSeconds(interval: string): Result<int>
  {
    if |interval| == 0 then Raised(IndexError)
    else
      var unit := interval[|interval| - 1];
      match ParseInt(interval[..|interval| - 1])
      case None => Raised(ValueError)
      case Some(value) =>
        if unit == 'm' then Ok(value * 60)
        else if unit == 'h' then Ok(value * 60 * 60)
        else if unit == 'd' then Ok(value * 24 * 60 * 60)
        else Raised(ValueError)
  }

  /**
   * The empty string is an IndexError; otherwise the interval is read as a count times the
   * seconds of its unit letter, and an unreadable count or an unknown unit is a ValueError.
   */
  lemma IntervalToSecondsCases(interval: string)
    ensures var r := IntervalToSeconds(interval);
      (|interval| == 0 ==> r == Raised(IndexError)) &&
      (|interval| > 0 ==>
        var count := ParseInt(interval[..|interval| - 1]);
        var unit := UnitSeconds(interval[|interval| - 1]);
        (r.Ok? <==> count.Some? && unit.Some?) &&
        (r.Ok? ==> r.value == count.value * unit.value) &&
        (r.Raised? ==> r.error == ValueError))
  {
  }

  /** "Nm", "Nh" and "Nd" mean N minutes, hours and days, for every integer N. */
  lemma IntervalOfCountAndUnit(n: int, unit: char)
    requires unit in "mhd"
    ensures IntervalToSeconds(IntString(n) + [unit]) == Ok(n * UnitSeconds(unit).value)
  {
    var s := IntString(n) + [unit];
    assert s[..|s| - 1] == IntString(n);
    ParseIntString(n);
    IntervalToSecondsCases(s);
  }

  /** Any other unit letter is a ValueError, whatever precedes it. */
  lemma UnknownUnitRaises(prefix: string, unit: char)
    requires unit !in "mhd"
    ensures IntervalToSeconds(prefix + [unit]) == Raised(ValueError)
  {
    var s := prefix + [unit];
    assert s[..|s| - 1] == prefix;
  }
}
