/** The feed's relative timestamp ("Just now", "5m ago", "3h ago", "2d ago"):
    which band an elapsed number of seconds falls in, how the band's count
    is printed in decimal, and a parser that reads a label back. */
module RelativeTime {
  import opened Wrappers

  const SecondsPerMinute := 60
  const SecondsPerHour := 3600
  const SecondsPerDay := 86400

  /** The four shapes a label takes. */
  datatype Relative = JustNow | MinutesAgo(n: nat) | HoursAgo(n: nat) | DaysAgo(n: nat)

  /** Whole seconds from `thenMillis` to `nowMillis`, rounded down as
      `Math.floor((now - date) / 1000)` does, negative differences included. */
  function ElapsedSeconds(nowMillis: int, thenMillis: int): (e: int)
    ensures e * 1000 <= nowMillis - thenMillis < e * 1000 + 1000
  {
    // Dafny's division by a positive divisor rounds down, as Math.floor does
    (nowMillis - thenMillis) / 1000
  }

  /** The band of an elapsed time in seconds. The bands partition all
      integers (a negative elapsed time, from clock skew, is "Just now"), and
      each count is the number of whole units elapsed, within the band's
      range. */
  function Classify(elapsed: int): (r: Relative)
    ensures r.JustNow? <==> elapsed < SecondsPerMinute
    ensures r.MinutesAgo? <==> SecondsPerMinute <= elapsed < SecondsPerHour
    ensures r.HoursAgo? <==> SecondsPerHour <= elapsed < SecondsPerDay
    ensures r.DaysAgo? <==> SecondsPerDay <= elapsed
    ensures r.MinutesAgo? ==>
      1 <= r.n <= 59 && r.n * SecondsPerMinute <= elapsed < (r.n + 1) * SecondsPerMinute
    ensures r.HoursAgo? ==>
      1 <= r.n <= 23 && r.n * SecondsPerHour <= elapsed < (r.n + 1) * SecondsPerHour
    ensures r.DaysAgo? ==>
      1 <= r.n && r.n * SecondsPerDay <= elapsed < (r.n + 1) * SecondsPerDay
  {
    if elapsed < SecondsPerMinute then JustNow
    else if elapsed < SecondsPerHour then MinutesAgo(elapsed / SecondsPerMinute)
    else if elapsed < SecondsPerDay then HoursAgo(elapsed / SecondsPerHour)
    else DaysAgo(elapsed / SecondsPerDay)
  }

  /** The age, in seconds, that a label stands for: its count in whole units. */
  function Age(r: Relative): nat {
    match r
    case JustNow => 0
    case MinutesAgo(n) => n * SecondsPerMinute
    case HoursAgo(n) => n * SecondsPerHour
    case DaysAgo(n) => n * SecondsPerDay
  }

  /** An older post never shows a younger label: the age a label stands for
      grows with the elapsed time, across band boundaries too. */
  lemma AgeMonotone(e1: int, e2: int)
    requires e1 <= e2
    ensures Age(Classify(e1)) <= Age(Classify(e2))
  {
    // the bounds Classify gives for each count are all this needs
  }

  // Decimal numerals, as JavaScript prints a non-negative integer below 10^21

  predicate IsDigit(c: char) {
    '0' <= c <= '9'
  }

  predicate AllDigits(s: string) {
    forall i :: 0 <= i < |s| ==> IsDigit(s[i])
  }

  function DigitChar(d: nat): (c: char)
    requires d < 10
    ensures IsDigit(c) && (c == '0' <==> d == 0)
  {
    ('0' as int + d) as char
  }

  /** The decimal numeral of `n`: only digits, at least one, and no leading
      zero unless `n` is zero itself. */
  function Decimal(n: nat): (s: string)
    ensures |s| >= 1 && AllDigits(s)
    ensures s[0] == '0' <==> n == 0
    ensures n == 0 ==> s == "0"
  {
    if n < 10 then [DigitChar(n)] else Decimal(n / 10) + [DigitChar(n % 10)]
  }

  /** The value of a string of digits. */
  function DecimalValue(s: string): (n: nat)
    requires AllDigits(s)
  {
    if s == [] then 0
    else DecimalValue(s[..|s| - 1]) * 10 + (s[|s| - 1] as int - '0' as int)
  }

  /** A numeral without superfluous leading zeros. */
  predicate IsCanonical(s: string) {
    |s| >= 1 && AllDigits(s) && (s[0] == '0' ==> |s| == 1)
  }

  /** Reading a printed count gives the count back. */
  lemma {:induction false} DecimalRoundTrip(n: nat)
    ensures DecimalValue(Decimal(n)) == n
  {
    if n >= 10 {
      var s := Decimal(n);
      assert s[..|s| - 1] == Decimal(n / 10);
      DecimalRoundTrip(n / 10);
    }
  }

  /** Printing the value of a canonical numeral gives the numeral back, so
      `Decimal` is a bijection onto the canonical numerals. */
  lemma {:induction false} CanonicalRoundTrip(s: string)
    requires IsCanonical(s)
    ensures Decimal(DecimalValue(s)) == s
  {
    if |s| > 1 {
      var p := s[..|s| - 1];
      assert IsCanonical(p);
      CanonicalRoundTrip(p);
      var v := DecimalValue(p);
      assert v != 0;
      var n := DecimalValue(s);
      assert n / 10 == v && n % 10 == s[|s| - 1] as int - '0' as int;
      assert s == p + [s[|s| - 1]];
    }
  }

  const JustNowLabel := "Just now"
  const MinutesSuffix := "m ago"
  const HoursSuffix := "h ago"
  const DaysSuffix := "d ago"

  /** The text shown for a label: "Just now" for that label and no other;
      otherwise a canonical numeral followed by the band's five-unit suffix. */
  function Render(r: Relative): (s: string)
    ensures s == JustNowLabel <==> r.JustNow?
    ensures !r.JustNow? ==> |s| > 5 && IsCanonical(s[..|s| - 5]) && s[|s| - 5..] == Suffix(r)
  {
    if r.JustNow? then JustNowLabel
    else
      var s := Decimal(r.n) + Suffix(r);
      // every suffix ends in 'o', "Just now" in 'w'
      assert s[|s| - 1] == 'o' != JustNowLabel[|JustNowLabel| - 1];
      assert s[..|s| - 5] == Decimal(r.n);
      s
  }

  /** The suffix naming a label's unit. */
  function Suffix(r: Relative): string
    requires !r.JustNow?
  {
    match r
    case MinutesAgo(_) => MinutesSuffix
    case HoursAgo(_) => HoursSuffix
    case DaysAgo(_) => DaysSuffix
  }

  /** Reads a shown text back into a label: "Just now", or a canonical
      numeral followed by one of the three suffixes. */
  function Parse(s: string): (r: Option<Relative>)
    ensures r == Some(JustNow) <==> s == JustNowLabel
    ensures r.Some? && !r.value.JustNow? ==> |s| > 5
  {
    if s == JustNowLabel then Some(JustNow)
    else if |s| <= 5 || !IsCanonical(s[..|s| - 5]) then None
    else
      var count := DecimalValue(s[..|s| - 5]);
      var suffix := s[|s| - 5..];
      if suffix == MinutesSuffix then Some(MinutesAgo(count))
      else if suffix == HoursSuffix then Some(HoursAgo(count))
      else if suffix == DaysSuffix then Some(DaysAgo(count))
      else None
  }

  /** Every shown text reads back as the label it was printed from. */
  lemma ParseRender(r: Relative)
    ensures Parse(Render(r)) == Some(r)
  {
    if !r.JustNow? {
      var s := Render(r);
      var d := Decimal(r.n);
      assert s[..|s| - 5] == d && s[|s| - 5..] == s[|d|..];
      assert s[|s| - 1] == 'o' != JustNowLabel[|JustNowLabel| - 1];
      DecimalRoundTrip(r.n);
    }
  }

  /** Every text the parser accepts is exactly the rendering of what it
      reads, so distinct labels are always shown as distinct texts. */
  lemma RenderParse(s: string)
    requires Parse(s).Some?
    ensures Render(Parse(s).value) == s
  {
    if s != JustNowLabel {
      var p := s[..|s| - 5];
      CanonicalRoundTrip(p);
      assert s == p + s[|s| - 5..];
    }
  }

  /** `formatTimestamp`: the text reads back as the band of the whole
      seconds elapsed (an absent, not yet resolved, timestamp counting as
      "Just now"), and it is "Just now" exactly when the timestamp is absent
      or less than a minute old. */
  function FormatTimestamp(timestampMillis: Option<int>, nowMillis: int): (text: string)
    ensures Parse(text) == Some(
      if timestampMillis.None? then JustNow
      else Classify(ElapsedSeconds(nowMillis, timestampMillis.value)))
    ensures text == JustNowLabel <==>
      timestampMillis.None? || ElapsedSeconds(nowMillis, timestampMillis.value) < SecondsPerMinute
  {
    match timestampMillis
    case None => ParseRender(JustNow); JustNowLabel
    case Some(t) =>
      var r := Classify(ElapsedSeconds(nowMillis, t));
      ParseRender(r);
      Render(r)
  }

  /** The labels at the edges of the "Just now" and minutes bands. */
  lemma MinuteBoundaryLabels()
    ensures Render(Classify(0)) == "Just now" && Render(Classify(59)) == "Just now"
    ensures Render(Classify(60)) == "1m ago" && Render(Classify(3599)) == "59m ago"
  {
    assert Classify(60) == MinutesAgo(1);
    assert Classify(3599) == MinutesAgo(59);
    assert Decimal(59) == "59" by { assert Decimal(5) == "5"; }
  }

  /** The labels at the edges of the hours band and the start of the days band. */
  lemma HourBoundaryLabels()
    ensures Render(Classify(3600)) == "1h ago" && Render(Classify(86399)) == "23h ago"
    ensures Render(Classify(86400)) == "1d ago"
  {
    assert Classify(3600) == HoursAgo(1);
    assert Classify(86399) == HoursAgo(23);
    assert Classify(86400) == DaysAgo(1);
    assert Decimal(23) == "23" by { assert Decimal(2) == "2"; }
  }
}
