/**
 `formatDate`: the relative label of a date, chosen from the whole number of
 days between it and now. The difference of two dates is a whole number of
 milliseconds; `Math.floor` of its quotient by the day length is Dafny's `/`,
 since the divisor is positive.
 */
module Formatting {
  import opened Wrappers

  /** Milliseconds in a day, `1000 * 60 * 60 * 24`. */
  const DayMs: int := 1000 * 60 * 60 * 24

  /** Whole days from now to the date, rounded towards minus infinity. */
  function DayDiff(ms: int): (d: int)
    ensures d * DayMs <= ms < (d + 1) * DayMs
  {
    ms / DayMs
  }

  /** The label kinds; `Localized` is the locale's short month and day, which the model keeps opaque. */
  datatype DateLabel = Today | Tomorrow | Yesterday | DaysAgo(days: nat) | Localized

  /** The label for a date `ms` milliseconds after now (negative: before now). */
  function LabelOf(ms: int): (l: DateLabel)
    ensures l == Today <==> 0 <= ms < DayMs
    ensures l == Tomorrow <==> DayMs <= ms < 2 * DayMs
    ensures l == Yesterday <==> -DayMs <= ms < 0
    ensures l.DaysAgo? <==> ms < -DayMs
    ensures l.DaysAgo? ==> l.days >= 2 && (l.days - 1) * DayMs < -ms <= l.days * DayMs
    ensures l == Localized <==> 2 * DayMs <= ms
  {
    var d := DayDiff(ms);
    if d == 0 then Today
    else if d == 1 then Tomorrow
    else if d == -1 then Yesterday
    else if d < 0 then DaysAgo(-d)
    else Localized
  }

  function DigitChar(d: nat): (c: char)
    requires d < 10
    ensures '0' <= c <= '9'
  {
    ('0' as int + d) as char
  }

  function DigitValue(c: char): nat {
    if '0' <= c <= '9' then (c as int - '0' as int) as nat else 0
  }

  /** The decimal numeral of `n`, as JavaScript writes a non-negative integer in a template. */
  function Decimal(n: nat): (s: string)
    ensures |s| >= 1
    ensures forall i :: 0 <= i < |s| ==> '0' <= s[i] <= '9'
    ensures |s| > 1 ==> s[0] != '0'
    decreases n
  {
    if n < 10 then [DigitChar(n)] else Decimal(n / 10) + [DigitChar(n % 10)]
  }

  /** Reads a string of decimal digits back as a number. */
  function ParseDecimal(s: string): nat
    decreases |s|
  {
    if |s| == 0 then 0 else ParseDecimal(s[..|s| - 1]) * 10 + DigitValue(s[|s| - 1])
  }

  lemma {:induction false} DecimalRoundTrip(n: nat)
    ensures ParseDecimal(Decimal(n)) == n
    decreases n
  {
    if n >= 10 {
      var s := Decimal(n);
      assert s[..|s| - 1] == Decimal(n / 10);
      DecimalRoundTrip(n / 10);
    }
  }

  /** The label's text; `localized` stands for `toLocaleDateString`'s result. */
  function LabelText(l: DateLabel, localized: string): (t: string)
  {
    match l
    case Today => "Today"
    case Tomorrow => "Tomorrow"
    case Yesterday => "Yesterday"
    case DaysAgo(n) => Decimal(n) + " days ago"
    case Localized => localized
  }

  /** `formatDate`. `ms` is `date - now`, or `None` when the date string does not parse (the
      difference is NaN, every comparison fails and the locale string is returned). */
  function FormatDate(ms: Option<int>, localized: string): (t: string)
    ensures ms.None? ==> t == localized
    ensures ms.Some? && 0 <= ms.value < DayMs ==> t == "Today"
    ensures ms.Some? && DayMs <= ms.value < 2 * DayMs ==> t == "Tomorrow"
    ensures ms.Some? && -DayMs <= ms.value < 0 ==> t == "Yesterday"
    ensures ms.Some? && 2 * DayMs <= ms.value ==> t == localized
    ensures ms.Some? && ms.value < -DayMs ==>
      exists n: nat :: n >= 2 && t == Decimal(n) + " days ago" && (n - 1) * DayMs < -ms.value <= n * DayMs
  {
    match ms
    case None => localized
    case Some(v) => LabelText(LabelOf(v), localized)
  }

  /** The number in an "N days ago" label is the number of whole days back, and it can be read back. */
  lemma DaysAgoCount(ms: int)
    requires ms < -DayMs
    ensures ParseDecimal(FormatDate(Some(ms), "")[..|FormatDate(Some(ms), "")| - |" days ago"|]) == -DayDiff(ms)
  {
    var l := LabelOf(ms);
    var s := Decimal(l.days);
    assert FormatDate(Some(ms), "") == s + " days ago";
    assert (s + " days ago")[..|s|] == s;
    DecimalRoundTrip(l.days);
  }
}
