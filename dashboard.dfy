/**
 * The pure parts of `Dashboard`: `formatTimeAgo`, the fallback that turns a
 * missing user or a response without `documents` into an empty list, and the
 * rounded percentage shown for a quiz attempt.
 *
 * `formatTimeAgo` is given the elapsed milliseconds `Date.now() - date.getTime()`
 * as an integer.
 */
module Dashboard {
  import opened Wrappers
  import Rounding

  const MsPerHour: int := 3600000
  const MsPerDay: int := 86400000

  // ----- Decimal rendering of a count, as a template literal prints it -----

  function DigitChar(d: nat): (c: char)
    requires d < 10
    ensures '0' <= c <= '9'
  {
    "0123456789"[d]
  }

  predicate IsDigit(c: char) {
    '0' <= c <= '9'
  }

  predicate AllDigits(s: string) {
    forall i :: 0 <= i < |s| ==> IsDigit(s[i])
  }

  /** The decimal numeral of `n`, most significant digit first, without leading zeros. */
  function Decimal(n: nat): (s: string)
    ensures |s| >= 1 && AllDigits(s)
    ensures |s| > 1 ==> s[0] != '0'
  {
    if n < 10 then [DigitChar(n)] else Decimal(n / 10) + [DigitChar(n % 10)]
  }

  /** The value of a string of decimal digits. */
  function DecimalValue(s: string): nat
    requires AllDigits(s)
  {
    if s == [] then 0 else 10 * DecimalValue(s[..|s| - 1]) + (s[|s| - 1] as int - '0' as int)
  }

  /** Reading the numeral back gives the number: the rendering loses nothing. */
  lemma {:induction false} DecimalRoundTrip(n: nat)
    ensures DecimalValue(Decimal(n)) == n
  {
    if n >= 10 {
      DecimalRoundTrip(n / 10);
      var s := Decimal(n);
      assert s[..|s| - 1] == Decimal(n / 10);
    }
  }

  // ----- formatTimeAgo -----

  /** The three buckets of `formatTimeAgo`. */
  datatype Age = JustNow | HoursAgo(hours: nat) | DaysAgo(days: nat)

  /**
   * The bucket of an elapsed time: under an hour (a future date included),
   * whole hours below a day, whole days from then on.
   */
  function AgeOf(elapsed: int): (a: Age)
    ensures a.JustNow? <==> elapsed < MsPerHour
    ensures a.HoursAgo? <==> MsPerHour <= elapsed < MsPerDay
    ensures a.DaysAgo? <==> MsPerDay <= elapsed
    ensures a.HoursAgo? ==> 1 <= a.hours <= 23 && a.hours * MsPerHour <= elapsed < (a.hours + 1) * MsPerHour
    ensures a.DaysAgo? ==> a.days >= 1 && a.days * MsPerDay <= elapsed < (a.days + 1) * MsPerDay
  {
    if elapsed < MsPerHour then JustNow
    else if elapsed < MsPerDay then HoursAgo(elapsed / MsPerHour)
    else DaysAgo(elapsed / MsPerDay)
  }

  const HoursSuffix: string := " hours ago"
  const DaysSuffix: string := " days ago"

  /**
   * `formatTimeAgo`: "just now" under an hour and only then; otherwise a
   * numeral followed by " hours ago" below a day and by " days ago" after.
   */
  function FormatTimeAgo(elapsed: int): (r: string)
    ensures r == "just now" <==> elapsed < MsPerHour
    ensures MsPerHour <= elapsed < MsPerDay ==>
      |r| > |HoursSuffix| && r[|r| - |HoursSuffix|..] == HoursSuffix && AllDigits(r[..|r| - |HoursSuffix|])
    ensures MsPerDay <= elapsed ==>
      |r| > |DaysSuffix| && r[|r| - |DaysSuffix|..] == DaysSuffix && AllDigits(r[..|r| - |DaysSuffix|])
  {
    match AgeOf(elapsed)
    case JustNow => "just now"
    case HoursAgo(h) =>
      var r := Decimal(h) + HoursSuffix;
      assert r[..|r| - |HoursSuffix|] == Decimal(h) && r[|r| - |HoursSuffix|..] == HoursSuffix;
      assert |r| > 8;
      r
    case DaysAgo(d) =>
      var r := Decimal(d) + DaysSuffix;
      assert r[..|r| - |DaysSuffix|] == Decimal(d) && r[|r| - |DaysSuffix|..] == DaysSuffix;
      assert |r| > 8;
      r
  }

  /** Reads a `formatTimeAgo` string back into its bucket. */
  function ParseTimeAgo(s: string): Option<Age> {
    if s == "just now" then Some(JustNow)
    else if |s| > |HoursSuffix| && s[|s| - |HoursSuffix|..] == HoursSuffix
         && AllDigits(s[..|s| - |HoursSuffix|]) then
      Some(HoursAgo(DecimalValue(s[..|s| - |HoursSuffix|])))
    else if |s| > |DaysSuffix| && s[|s| - |DaysSuffix|..] == DaysSuffix
         && AllDigits(s[..|s| - |DaysSuffix|]) then
      Some(DaysAgo(DecimalValue(s[..|s| - |DaysSuffix|])))
    else None
  }

  /**
   * The displayed text determines the bucket and the count: no two buckets
   * print alike, and the count printed is the one computed.
   */
  lemma {:induction false} FormatTimeAgoParses(elapsed: int)
    ensures ParseTimeAgo(FormatTimeAgo(elapsed)) == Some(AgeOf(elapsed))
  {
    var s := FormatTimeAgo(elapsed);
    match AgeOf(elapsed)
    case JustNow =>
    case HoursAgo(h) =>
      var digits := Decimal(h);
      DecimalRoundTrip(h);
      assert s[..|s| - |HoursSuffix|] == digits;
      assert s[|s| - |HoursSuffix|..] == HoursSuffix;
      assert s != "just now" by { assert |s| > 8; }
    case DaysAgo(d) =>
      var digits := Decimal(d);
      DecimalRoundTrip(d);
      assert s[..|s| - |DaysSuffix|] == digits;
      assert s[|s| - |DaysSuffix|..] == DaysSuffix;
      assert s != "just now" by { assert |s| > 8; }
      if |s| > |HoursSuffix| {
        assert s[|s| - |HoursSuffix|..][1] == ' ' != HoursSuffix[1];
      }
  }

  // ----- loadDocuments -----

  /** What the documents request produced: a failure (caught and logged), or the JSON body's `documents`. */
  datatype DocumentsFetch<D> = FetchFailed | Fetched(documents: Option<seq<D>>)

  /**
   * `recentDocuments` after `loadDocuments`: empty without a user id (a missing
   * or empty one), `result.documents || []` after a response, and the previous
   * list when the request threw.
   */
  function RecentDocuments<D>(previous: seq<D>, userId: Option<string>, fetch: DocumentsFetch<D>): (r: seq<D>)
    ensures userId.None? || userId == Some("") ==> r == []
    ensures userId.Some? && userId.value != "" && fetch.Fetched? && fetch.documents.None? ==> r == []
    ensures userId.Some? && userId.value != "" && fetch.Fetched? && fetch.documents.Some? ==> r == fetch.documents.value
    ensures userId.Some? && userId.value != "" && fetch.FetchFailed? ==> r == previous
    // a non-empty list shown was either just fetched or already on screen
    ensures r != [] ==>
      && userId.Some? && userId.value != ""
      && (fetch == Fetched(Some(r)) || (fetch.FetchFailed? && r == previous))
  {
    if userId.None? || userId.value == "" then []
    else match fetch
      case FetchFailed => previous
      case Fetched(documents) => documents.GetOr([])
  }

  /**
   * The list is loaded once, when the dashboard mounts, over the initial
   * empty list: a failed load shows no documents, and a shown list was fetched.
   */
  lemma FirstLoad<D>(userId: Option<string>, fetch: DocumentsFetch<D>)
    ensures fetch.FetchFailed? ==> RecentDocuments<D>([], userId, fetch) == []
    ensures RecentDocuments<D>([], userId, fetch) != [] ==> fetch == Fetched(Some(RecentDocuments<D>([], userId, fetch)))
  {
  }

  // ----- Quiz percentage -----

  /** `Math.round((quiz.score / quiz.total) * 100)` for a positive total. */
  function QuizPercent(score: int, total: int): (r: int)
    requires total > 0
    ensures 2 * total * r - total <= 200 * score < 2 * total * r + total
    ensures 0 <= score <= total ==> 0 <= r <= 100
    ensures score == total ==> r == 100
    ensures score == 0 ==> r == 0
  {
    Rounding.RoundedPercentExtremes(total);
    var r := Rounding.RoundedPercent(score, total);
    if 0 <= score <= total then Rounding.RoundedPercentInRange(score, total); r else r
  }
}
