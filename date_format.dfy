/** The `formatDate` helper of the booking listings: `Mon-DD-YYYY`, a
    three-letter month name from a fixed table, the day of the month padded
    to two digits, and the full year. The date's components come from the
    local-time getters of `Date`, which the model takes as given. */
module DateFormat {
  import opened Common

  const MonthNames: seq<string> :=
    ["Jan", "Feb", "Mar", "Apr", "May", "Jun", "Jul", "Aug", "Sep", "Oct", "Nov", "Dec"]

  /** What `getMonth()` returns. */
  type MonthIndex = m: int | 0 <= m < 12

  /** What `getDate()` returns. */
  type DayOfMonth = d: int | 1 <= d <= 31 witness 1

  /** `getFullYear()`, `getMonth()` and `getDate()` of one instant. */
  datatype DateParts = DateParts(year: int, month: MonthIndex, day: DayOfMonth)

  predicate IsDigit(c: char)
  {
    '0' <= c <= '9'
  }

  predicate AllDigits(s: string)
  {
    forall i :: 0 <= i < |s| ==> IsDigit(s[i])
  }

  function DigitChar(n: int): (c: char)
    requires 0 <= n < 10
    ensures IsDigit(c) && DigitValue(c) == n
  {
    (48 + n) as char
  }

  function DigitValue(c: char): int
    requires IsDigit(c)
  {
    c as int - 48
  }

  /** Decimal notation of a natural number, as `Number.prototype.toString`
      writes it: no sign, no leading zeros. */
  function NatToString(n: nat): (s: string)
    ensures |s| >= 1 && AllDigits(s)
    decreases n
  {
    if n < 10 then [DigitChar(n)] else NatToString(n / 10) + [DigitChar(n % 10)]
  }

  /** Decimal notation of an integer: a minus sign before negative numbers. */
  function IntToString(y: int): (s: string)
    ensures |s| >= 1
  {
    if y < 0 then "-" + NatToString(-y) else NatToString(y)
  }

  /** `toString().padStart(2, "0")` of a day of the month. */
  function PadDay(d: DayOfMonth): (s: string)
    ensures |s| == 2 && AllDigits(s)
    ensures DigitValue(s[0]) * 10 + DigitValue(s[1]) == d
  {
    [DigitChar(d / 10), DigitChar(d % 10)]
  }

  /** The formatted date. */
  function FormatDate(p: DateParts): (s: string)
    ensures |s| >= 8 && s[..3] == MonthNames[p.month]
    ensures s[3] == '-' && s[6] == '-' && s[4..6] == PadDay(p.day)
    ensures s[7..] == IntToString(p.year)
  {
    MonthNames[p.month] + "-" + PadDay(p.day) + "-" + IntToString(p.year)
  }

  // ------------------------------------------------------------ reading back

  /** The value of a string of decimal digits, read from the right. */
  function ParseNat(s: string): nat
    requires |s| >= 1 && AllDigits(s)
    decreases |s|
  {
    if |s| == 1 then DigitValue(s[0])
    else 10 * ParseNat(s[..|s| - 1]) + DigitValue(s[|s| - 1])
  }

  predicate IsIntString(s: string)
  {
    if |s| >= 1 && s[0] == '-' then |s| >= 2 && AllDigits(s[1..])
    else |s| >= 1 && AllDigits(s)
  }

  function ParseInt(s: string): int
    requires IsIntString(s)
  {
    if s[0] == '-' then 0 - ParseNat(s[1..]) as int else ParseNat(s)
  }

  /** The month whose name is `name`, if any. */
  function MonthOf(name: string): (r: Option<MonthIndex>)
    ensures r.Some? ==> MonthNames[r.value] == name
    ensures r.None? ==> name !in MonthNames
  {
    MonthFrom(name, 0)
  }

  function MonthFrom(name: string, i: nat): (r: Option<MonthIndex>)
    requires i <= 12
    ensures r.Some? ==> i <= r.value && MonthNames[r.value] == name
    ensures r.None? ==> forall j :: i <= j < 12 ==> MonthNames[j] != name
    decreases 12 - i
  {
    if i == 12 then None
    else if MonthNames[i] == name then Some(i)
    else MonthFrom(name, i + 1)
  }

  /** Reads a `Mon-DD-YYYY` string back into its components. */
  function ParseDate(s: string): Option<DateParts>
  {
    if |s| < 8 || s[3] != '-' || s[6] != '-' || !IsDigit(s[4]) || !IsDigit(s[5]) || !IsIntString(s[7..]) then None
    else
      var m := MonthOf(s[..3]);
      var d := DigitValue(s[4]) * 10 + DigitValue(s[5]);
      if m.None? || !(1 <= d <= 31) then None
      else Some(DateParts(ParseInt(s[7..]), m.value, d))
  }

  /** The twelve month names are distinct. */
  lemma MonthNamesDistinct()
    ensures forall i, j :: 0 <= i < 12 && 0 <= j < 12 && MonthNames[i] == MonthNames[j] ==> i == j
  {
  }

  lemma {:induction false} ParseNatToString(n: nat)
    ensures ParseNat(NatToString(n)) == n
    decreases n
  {
    if n >= 10 {
      var s := NatToString(n);
      var prefix := NatToString(n / 10);
      assert s == prefix + [DigitChar(n % 10)];
      assert s[..|s| - 1] == prefix;
      ParseNatToString(n / 10);
    }
  }

  lemma ParseIntToString(y: int)
    ensures IsIntString(IntToString(y)) && ParseInt(IntToString(y)) == y
  {
    var s := IntToString(y);
    if y < 0 {
      var digits := NatToString(-y);
      assert s == "-" + digits && s[0] == '-';
      assert s[1..] == digits;
      ParseNatToString(-y);
    } else {
      assert IsDigit(s[0]);
      ParseNatToString(y);
    }
  }

  /** Formatting loses nothing: the string reads back as the date it came from. */
  lemma ParseFormatDate(p: DateParts)
    ensures ParseDate(FormatDate(p)) == Some(p)
  {
    var s := FormatDate(p);
    ParseIntToString(p.year);
    MonthNamesDistinct();
    assert s[4] == PadDay(p.day)[0] && s[5] == PadDay(p.day)[1];
  }
}
