/**
 * Numbers and day texts as the JavaScript code reads and writes them:
 * `String(n)`, `parseInt(s)` and `new Date(s)`, with calendar dates
 * represented by integer day numbers (days since the epoch).
 */
module Text {
  import opened Common

  /** A JavaScript number as `parseInt` produces it: an integer, or NaN. */
  datatype Num = Finite(value: int) | NaN {
    /** `x + 1` on a JavaScript number. */
    function PlusOne(): Num
    {
      if Finite? then Finite(value + 1) else NaN
    }
  }

  /** `a + b` on two JavaScript numbers: NaN absorbs. */
  function Add(a: Num, b: Num): Num
  {
    if a.Finite? && b.Finite? then Finite(a.value + b.value) else NaN
  }

  /** Milliseconds in one day. */
  const DayMillis: nat := 86_400_000

  /** The day number of an instant given in milliseconds (the date part of `toISOString()`). */
  function DayOf(millis: nat): nat
  {
    millis / DayMillis
  }

  predicate IsDigit(c: char)
  {
    '0' <= c <= '9'
  }

  predicate AllDigits(s: string)
  {
    forall i :: 0 <= i < |s| ==> IsDigit(s[i])
  }

  function DigitChar(d: nat): (c: char)
    requires d < 10
    ensures IsDigit(c)
  {
    ('0' as int + d) as char
  }

  function DigitValue(c: char): nat
    requires IsDigit(c)
  {
    c as int - '0' as int
  }

  /** Decimal numeral of a natural number, most significant digit first. */
  function Digits(n: nat): (s: string)
    ensures s != [] && AllDigits(s)
  {
    if n < 10 then [DigitChar(n)] else Digits(n / 10) + [DigitChar(n % 10)]
  }

  /** The number a non-empty digit string denotes. */
  function ValueOf(s: string): nat
    requires AllDigits(s)
  {
    if s == [] then 0 else 10 * ValueOf(s[..|s| - 1]) + DigitValue(s[|s| - 1])
  }

  lemma {:induction false} ValueOfDigits(n: nat)
    ensures ValueOf(Digits(n)) == n
  {
    var s := Digits(n);
    if n < 10 {
      assert s[..|s| - 1] == [];
    } else {
      ValueOfDigits(n / 10);
      assert s[..|s| - 1] == Digits(n / 10);
    }
  }

  /** `String(n)` for an integer. */
  function IntText(n: int): string
  {
    if n < 0 then "-" + Digits(-n) else Digits(n)
  }

  /** `String(x)` for a number that may be NaN. */
  function NumText(x: Num): string
  {
    match x
    case Finite(n) => IntText(n)
    case NaN => "NaN"
  }

  /** Length of the run of digits at the start of `s`. */
  function LeadingDigits(s: string): (k: nat)
    ensures k <= |s| && AllDigits(s[..k])
    ensures k < |s| ==> !IsDigit(s[k])
  {
    if s == [] || !IsDigit(s[0]) then 0
    else
      var k := 1 + LeadingDigits(s[1..]);
      assert s[..k] == [s[0]] + s[1..][..k - 1];
      k
  }

  lemma {:induction false} LeadingDigitsOfNumeral(s: string)
    requires AllDigits(s)
    ensures LeadingDigits(s) == |s|
  {
    if s != [] {
      LeadingDigitsOfNumeral(s[1..]);
    }
  }

  /**
   * `parseInt(s)`: an optional sign, then the longest run of decimal digits;
   * NaN when there is no digit.
   */
  function ParseInt(s: string): Num
  {
    var signed := |s| > 0 && (s[0] == '-' || s[0] == '+');
    var rest := if signed then s[1..] else s;
    var k := LeadingDigits(rest);
    if k == 0 then NaN
    else if signed && s[0] == '-' then Finite(-(ValueOf(rest[..k]) as int))
    else Finite(ValueOf(rest[..k]))
  }

  /** Reading back what `String(n)` wrote gives `n` again. */
  lemma ParseIntText(n: int)
    ensures ParseInt(IntText(n)) == Finite(n)
  {
    var m := if n < 0 then -n else n;
    var d := Digits(m);
    ValueOfDigits(m);
    LeadingDigitsOfNumeral(d);
    assert d[..|d|] == d;
    if n < 0 {
      assert IntText(n)[1..] == d;
    }
  }

  /** The text of a calendar day (stands for the `YYYY-MM-DD` date of `toISOString()`). */
  function DayText(day: int): string
  {
    IntText(day)
  }

  /** `new Date(s)` on a day text: the day, or None for an invalid date. */
  function ParseDay(s: string): Option<int>
  {
    if |s| > 1 && s[0] == '-' && AllDigits(s[1..]) then Some(-(ValueOf(s[1..]) as int))
    else if s != [] && AllDigits(s) then Some(ValueOf(s))
    else None
  }

  /** Parsing a day text gives back its day. */
  lemma ParseDayText(day: int)
    ensures ParseDay(DayText(day)) == Some(day)
  {
    var m := if day < 0 then -day else day;
    ValueOfDigits(m);
    if day < 0 {
      assert DayText(day)[1..] == Digits(m);
    }
  }
}
