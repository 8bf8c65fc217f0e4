/** The receipt timestamp: a day of the month with its English ordinal suffix, then the
    month, year and 12-hour clock that `strftime` renders. */
module Timestamp {
  import opened Decimal

  /** A day of the month, as `datetime.day` holds it. */
  type Day = d: nat | 1 <= d <= 31 witness 1

  /** A UTC instant as the formatter sees it: the day of the month, and `rest`, the text
      `strftime` produces for `%B %Y - %I:%M %p UTC` at that instant, which this model takes as given. */
  datatype UtcTime = UtcTime(day: Day, rest: string)

  /** The ordinal suffix the formatter appends to the day: "th" for 11 to 13, otherwise
      chosen by the last digit. */
  function Suffix(day: nat): (s: string)
    ensures s == "st" || s == "nd" || s == "rd" || s == "th"
  {
    if 11 <= day <= 13 then "th"
    else if day % 10 == 1 then "st"
    else if day % 10 == 2 then "nd"
    else if day % 10 == 3 then "rd"
    else "th"
  }

  /** The English rule, stated on the tens and units digits: numbers in the teens take "th". */
  function EnglishOrdinalSuffix(n: nat): string {
    var units, tens := n % 10, n / 10 % 10;
    if tens == 1 then "th"
    else if units == 1 then "st"
    else if units == 2 then "nd"
    else if units == 3 then "rd"
    else "th"
  }

  /** For every day of a month the formatter's rule is the English ordinal rule. */
  lemma SuffixIsEnglishOrdinal(day: Day)
    ensures Suffix(day) == EnglishOrdinalSuffix(day)
  {
  }

  /** The whole table for a month: which days take which suffix. */
  lemma SuffixTable(day: Day)
    ensures Suffix(day) == "st" <==> day == 1 || day == 21 || day == 31
    ensures Suffix(day) == "nd" <==> day == 2 || day == 22
    ensures Suffix(day) == "rd" <==> day == 3 || day == 23
    ensures Suffix(day) == "th" <==> !(day in {1, 2, 3, 21, 22, 23, 31})
  {
  }

  /** The rendered timestamp: the day in decimal, its suffix, a space, then the rest. */
  function FormatTimestamp(t: UtcTime): string {
    NatToDecimal(t.day) + Suffix(t.day) + " " + t.rest
  }

  /** A rendered timestamp begins with the decimal day, immediately followed by the day's
      two-letter suffix and one space, and ends with the `strftime` text. */
  lemma TimestampLayout(t: UtcTime)
    ensures var s, n := FormatTimestamp(t), NatToDecimal(t.day);
      |s| == |n| + 3 + |t.rest| && s[..|n|] == n && s[|n|..|n| + 2] == Suffix(t.day) &&
      s[|n| + 2] == ' ' && s[|n| + 3..] == t.rest
  {
    var s, n, x := FormatTimestamp(t), NatToDecimal(t.day), Suffix(t.day);
    assert s == n + (x + " " + t.rest);
    assert s[|n|..] == x + " " + t.rest;
  }

  /** The longest prefix of `s` made of decimal digits. */
  function LeadingDigits(s: string): (d: string)
    ensures AllDigits(d)
  {
    if s == [] || !IsDigit(s[0]) then [] else [s[0]] + LeadingDigits(s[1..])
  }

  /** The leading digits of a numeral followed by a non-digit are the numeral. */
  lemma {:induction false} LeadingDigitsOfConcat(d: string, t: string)
    requires AllDigits(d)
    requires t == [] || !IsDigit(t[0])
    ensures LeadingDigits(d + t) == d
  {
    if d != [] {
      assert (d + t)[1..] == d[1..] + t;
      LeadingDigitsOfConcat(d[1..], t);
    } else {
      assert d + t == t;
    }
  }

  /** The day can be read back from the front of a rendered timestamp. */
  lemma DayOfTimestamp(t: UtcTime)
    ensures DecimalValue(LeadingDigits(FormatTimestamp(t))) == t.day
  {
    var n := NatToDecimal(t.day);
    var tail := Suffix(t.day) + " " + t.rest;
    assert FormatTimestamp(t) == n + tail;
    LeadingDigitsOfConcat(n, tail);
    DecimalRoundTrip(t.day);
  }

  /** The examples of a month: 1st, 2nd, 3rd, 4th, 11th, 12th, 13th, 21st, 22nd, 23rd. */
  lemma SuffixExamples()
    ensures Suffix(1) == "st" && Suffix(2) == "nd" && Suffix(3) == "rd" && Suffix(4) == "th"
    ensures Suffix(11) == "th" && Suffix(12) == "th" && Suffix(13) == "th"
    ensures Suffix(21) == "st" && Suffix(22) == "nd" && Suffix(23) == "rd" && Suffix(31) == "st"
  {
  }

  /** Sample renderings: whatever `strftime` gives for the rest, day 1 renders as "1st ...",
      day 12 as "12th ...", day 22 as "22nd ...". */
  lemma FormatExamples(rest: string)
    ensures FormatTimestamp(UtcTime(1, rest)) == "1st " + rest
    ensures FormatTimestamp(UtcTime(12, rest)) == "12th " + rest
    ensures FormatTimestamp(UtcTime(22, rest)) == "22nd " + rest
  {
    assert DigitChar(1) == '1' && DigitChar(2) == '2';
    assert NatToDecimal(1) == "1";
    assert NatToDecimal(12) == NatToDecimal(1) + [DigitChar(2)] == "12";
    assert NatToDecimal(22) == NatToDecimal(2) + [DigitChar(2)] == "22";
  }
}
