/** Relative times ("5m ago"). The product page and the home page each
    format the time elapsed since a date; the first divides step by step
    (seconds, minutes, hours, days, 30-day months, 12-month years), the
    second divides the milliseconds directly and stops at days. Elapsed time
    is an input in whole milliseconds; it may be negative for a date in the
    future. */
module TimeAgo {
  import opened Text

  const MsPerSecond: int := 1000
  const MsPerMinute: int := 60 * MsPerSecond
  const MsPerHour: int := 60 * MsPerMinute
  const MsPerDay: int := 24 * MsPerHour
  /** A month of the product page is 30 days, a year 12 such months. */
  const MsPerMonth: int := 30 * MsPerDay
  const MsPerYear: int := 12 * MsPerMonth

  /** The bucket a relative time falls in, with its whole count. */
  datatype Age = JustNow | Minutes(n: nat) | Hours(n: nat) | Days(n: nat) | Months(n: nat) | Years(n: nat)

  /** The product page's buckets (ProductDetailsPage formatTimeAgo). Each
      count is the elapsed time divided by its unit and rounded down, and
      each bucket covers exactly the interval its unit names. */
  function DetailAge(elapsedMs: int): (a: Age)
    ensures a.JustNow? <==> elapsedMs < MsPerMinute
    ensures a.Minutes? <==> MsPerMinute <= elapsedMs < MsPerHour
    ensures a.Hours? <==> MsPerHour <= elapsedMs < MsPerDay
    ensures a.Days? <==> MsPerDay <= elapsedMs < MsPerMonth
    ensures a.Months? <==> MsPerMonth <= elapsedMs < MsPerYear
    ensures a.Years? <==> MsPerYear <= elapsedMs
    ensures a.Minutes? ==> a.n == elapsedMs / MsPerMinute
    ensures a.Hours? ==> a.n == elapsedMs / MsPerHour
    ensures a.Days? ==> a.n == elapsedMs / MsPerDay
    ensures a.Months? ==> a.n == elapsedMs / MsPerMonth
    ensures a.Years? ==> a.n == elapsedMs / MsPerYear
  {
    var seconds := elapsedMs / 1000;
    if seconds < 60 then JustNow
    else
      var minutes := seconds / 60;
      if minutes < 60 then Minutes(minutes)
      else
        var hours := minutes / 60;
        if hours < 24 then Hours(hours)
        else
          var days := hours / 24;
          if days < 30 then Days(days)
          else
            var months := days / 30;
            if months < 12 then Months(months)
            else Years(months / 12)
  }

  /** The home page's buckets (HomePage formatTimeAgo): no month or year,
      so anything from a day on is counted in days. */
  function HomeAge(elapsedMs: int): (a: Age)
    ensures a.JustNow? <==> elapsedMs < MsPerMinute
    ensures a.Minutes? <==> MsPerMinute <= elapsedMs < MsPerHour
    ensures a.Hours? <==> MsPerHour <= elapsedMs < MsPerDay
    ensures a.Days? <==> MsPerDay <= elapsedMs
    ensures !a.Months? && !a.Years?
    ensures a.Minutes? ==> a.n == elapsedMs / MsPerMinute
    ensures a.Hours? ==> a.n == elapsedMs / MsPerHour
    ensures a.Days? ==> a.n == elapsedMs / MsPerDay
  {
    var minutes := elapsedMs / (1000 * 60);
    var hours := elapsedMs / (1000 * 60 * 60);
    var days := elapsedMs / (1000 * 60 * 60 * 24);
    if minutes < 1 then JustNow
    else if minutes < 60 then Minutes(minutes)
    else if hours < 24 then Hours(hours)
    else Days(days)
  }

  /** The text of a bucket; the two pages differ in how "just now" is capitalised. */
  function Label(a: Age, justNow: string): string
  {
    match a
    case JustNow => justNow
    case Minutes(n) => NatToString(n) + "m ago"
    case Hours(n) => NatToString(n) + "h ago"
    case Days(n) => NatToString(n) + "d ago"
    case Months(n) => NatToString(n) + "mo ago"
    case Years(n) => NatToString(n) + "y ago"
  }

  const DetailJustNow: string := "just now"
  const HomeJustNow: string := "Just now"

  function DetailTimeAgo(elapsedMs: int): string
  {
    Label(DetailAge(elapsedMs), DetailJustNow)
  }

  function HomeTimeAgo(elapsedMs: int): string
  {
    Label(HomeAge(elapsedMs), HomeJustNow)
  }

  /** The two formatters put every time under thirty days in the same
      bucket with the same count; from thirty days on the home page keeps
      counting days where the product page switches to months and years. */
  lemma FormattersAgree(elapsedMs: int)
    ensures elapsedMs < MsPerMonth ==> HomeAge(elapsedMs) == DetailAge(elapsedMs)
    ensures elapsedMs >= MsPerMonth ==>
      HomeAge(elapsedMs) == Days(elapsedMs / MsPerDay) && elapsedMs / MsPerDay >= 30 &&
      !DetailAge(elapsedMs).Days?
  {
  }

  /** The character five places from the end of a label names its unit. */
  function UnitMark(a: Age): char
  {
    match a
    case JustNow => 't'
    case Minutes(_) => 'm'
    case Hours(_) => 'h'
    case Days(_) => 'd'
    case Months(_) => 'o'
    case Years(_) => 'y'
  }

  function Count(a: Age): nat
  {
    match a
    case JustNow => 0
    case Minutes(n) => n
    case Hours(n) => n
    case Days(n) => n
    case Months(n) => n
    case Years(n) => n
  }

  /** The text after the count. */
  function Suffix(a: Age): string
    requires !a.JustNow?
  {
    match a
    case Minutes(_) => "m ago"
    case Hours(_) => "h ago"
    case Days(_) => "d ago"
    case Months(_) => "mo ago"
    case Years(_) => "y ago"
  }

  lemma LabelShape(a: Age, justNow: string)
    requires justNow == DetailJustNow || justNow == HomeJustNow
    ensures |Label(a, justNow)| >= 5 && Label(a, justNow)[|Label(a, justNow)| - 5] == UnitMark(a)
    ensures !a.JustNow? ==> Label(a, justNow) == NatToString(Count(a)) + Suffix(a)
  {
    NatToStringRoundTrip(Count(a));
  }

  /** A label names its bucket and count unambiguously: different ages
      never print the same. */
  lemma LabelInjective(a: Age, b: Age, justNow: string)
    requires justNow == DetailJustNow || justNow == HomeJustNow
    requires Label(a, justNow) == Label(b, justNow)
    ensures a == b
  {
    LabelShape(a, justNow);
    LabelShape(b, justNow);
    if !a.JustNow? {
      var s := Label(a, justNow);
      assert Suffix(a) == Suffix(b);
      assert NatToString(Count(a)) == s[..|s| - |Suffix(a)|];
      assert NatToString(Count(b)) == s[..|s| - |Suffix(b)|];
      NatToStringInjective(Count(a), Count(b));
    }
  }

  /** Sample readings of both formatters. */
  lemma TimeAgoExamples()
    ensures DetailTimeAgo(59999) == "just now" && HomeTimeAgo(-5000) == "Just now"
    ensures DetailTimeAgo(90 * MsPerMinute) == "1h ago"
    ensures DetailTimeAgo(45 * MsPerDay) == "1mo ago" && HomeTimeAgo(45 * MsPerDay) == "45d ago"
  {
    assert NatToString(1) == "1";
    assert NatToString(4) == "4" && NatToString(5) == "5";
    assert NatToString(45) == NatToString(4) + "5";
  }
}
