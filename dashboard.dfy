/**
 * The two computations of Dashboard.jsx: the "time ago" bucketing of an
 * activity date and the short list of jobs waiting for an appointment.
 */
module Dashboard {
  import Jobs
  import FormHelpers

  // ---------------------------------------------------------------------------
  // formatTimeAgo
  // ---------------------------------------------------------------------------

  const MinuteMs := 60000
  const HourMs := 3600000
  const DayMs := 86400000

  /** The buckets `formatTimeAgo` can answer with. */
  datatype TimeAgo = Blank | MinutesAgo(minutes: int) | HoursAgo(hours: int) | Today | Yesterday | DaysAgo(days: int)

  /**
   * `formatTimeAgo` for a date string and `diffMs = now - date` in
   * milliseconds. `Math.floor` of a quotient by a positive constant is
   * Dafny's `/`.
   */
  function FormatTimeAgo(dateStr: string, diffMs: int): (t: TimeAgo)
    ensures dateStr == "" <==> t == Blank
    ensures t.MinutesAgo? <==> dateStr != "" && diffMs < HourMs
    ensures t.MinutesAgo? ==> t.minutes == diffMs / MinuteMs && t.minutes < 60
    ensures t.HoursAgo? <==> dateStr != "" && HourMs <= diffMs < DayMs
    ensures t.HoursAgo? ==> 1 <= t.hours <= 23 && t.hours == diffMs / HourMs
    ensures t.Yesterday? <==> dateStr != "" && DayMs <= diffMs < 2 * DayMs
    ensures t.DaysAgo? ==> t.days >= 2 && t.days == diffMs / DayMs
  {
    if dateStr == "" then Blank
    else
      var diffMins := diffMs / MinuteMs;
      var diffHours := diffMs / HourMs;
      var diffDays := diffMs / DayMs;
      if diffMins < 60 then MinutesAgo(diffMins)
      else if diffHours < 24 then HoursAgo(diffHours)
      else if diffDays == 0 then Today
      else if diffDays == 1 then Yesterday
      else DaysAgo(diffDays)
  }

  /** The text shown for a bucket. */
  function TimeAgoText(t: TimeAgo): (text: string)
    ensures text == "" <==> t == Blank
  {
    match t
    case Blank => ""
    case MinutesAgo(m) => FormHelpers.IntToText(m) + " dk önce"
    case HoursAgo(h) => FormHelpers.IntToText(h) + " saat önce"
    case Today => "Bugün"
    case Yesterday => "Dün"
    case DaysAgo(d) => FormHelpers.IntToText(d) + " gün önce"
  }

  /** The 'Bugün' branch can never be taken: reaching it needs diffDays == 0 after diffHours >= 24. */
  lemma TodayUnreachable(dateStr: string, diffMs: int)
    ensures FormatTimeAgo(dateStr, diffMs) != Today
  {
  }

  /** A date from the future (negative difference) is reported as a negative number of minutes. */
  lemma FutureDateInMinutes(diffMs: int)
    requires diffMs < 0
    ensures FormatTimeAgo("x", diffMs).MinutesAgo? && FormatTimeAgo("x", diffMs).minutes < 0
  {
  }

  /** The buckets follow the elapsed time: a later moment never lands in an earlier bucket. */
  lemma BucketsMonotone(dateStr: string, d1: int, d2: int)
    requires dateStr != "" && d1 <= d2
    ensures Rank(FormatTimeAgo(dateStr, d1)) <= Rank(FormatTimeAgo(dateStr, d2))
  {
  }

  function Rank(t: TimeAgo): int {
    match t
    case Blank => 0
    case MinutesAgo(_) => 1
    case HoursAgo(_) => 2
    case Today => 3
    case Yesterday => 4
    case DaysAgo(_) => 5
  }

  // ---------------------------------------------------------------------------
  // Pending appointments
  // ---------------------------------------------------------------------------

  const PendingStatuses: seq<string> := ["OLCU_RANDEVU_BEKLIYOR", "SERVIS_RANDEVU_BEKLIYOR"]
  const PendingLimit := 5

  /** `jobs.filter((job) => PENDING_STATUSES.includes(job.status))`. */
  function FilterPending(jobs: seq<Jobs.Job>): (r: seq<Jobs.Job>)
    ensures forall j :: j in r <==> j in jobs && j.status in PendingStatuses
    ensures |r| <= |jobs|
  {
    if jobs == [] then []
    else if jobs[0].status in PendingStatuses then [jobs[0]] + FilterPending(jobs[1..])
    else FilterPending(jobs[1..])
  }

  /** `.slice(0, 5)` of the filtered jobs. */
  function PendingAppointments(jobs: seq<Jobs.Job>): (r: seq<Jobs.Job>)
    ensures |r| <= PendingLimit
    ensures forall j :: j in r ==> j in jobs && j.status in PendingStatuses
    ensures |FilterPending(jobs)| <= PendingLimit ==> r == FilterPending(jobs)
    ensures |FilterPending(jobs)| > PendingLimit ==> |r| == PendingLimit
    ensures r <= FilterPending(jobs)
  {
    var pending := FilterPending(jobs);
    if |pending| <= PendingLimit then pending else pending[..PendingLimit]
  }

  /** `a` is `b` with some elements dropped, the rest in their original order. */
  ghost predicate Subsequence(a: seq<Jobs.Job>, b: seq<Jobs.Job>)
    decreases |b|
  {
    if a == [] then true
    else if b == [] then false
    else (a[0] == b[0] && Subsequence(a[1..], b[1..])) || Subsequence(a, b[1..])
  }

  lemma {:induction false} FilterIsSubsequence(jobs: seq<Jobs.Job>)
    ensures Subsequence(FilterPending(jobs), jobs)
  {
    if jobs != [] {
      FilterIsSubsequence(jobs[1..]);
      if jobs[0].status in PendingStatuses {
        assert ([jobs[0]] + FilterPending(jobs[1..]))[1..] == FilterPending(jobs[1..]);
      }
    }
  }

  lemma {:induction false} PrefixOfSubsequence(a: seq<Jobs.Job>, b: seq<Jobs.Job>, k: nat)
    requires Subsequence(a, b) && k <= |a|
    ensures Subsequence(a[..k], b)
    decreases |b|
  {
    if k > 0 && b != [] {
      if a[0] == b[0] && Subsequence(a[1..], b[1..]) {
        PrefixOfSubsequence(a[1..], b[1..], k - 1);
        assert a[..k][1..] == a[1..][..k - 1];
      } else {
        PrefixOfSubsequence(a, b[1..], k);
      }
    }
  }

  /** The short list keeps the order of the job list. */
  lemma PendingKeepsOrder(jobs: seq<Jobs.Job>)
    ensures Subsequence(PendingAppointments(jobs), jobs)
  {
    var pending := FilterPending(jobs);
    FilterIsSubsequence(jobs);
    if |pending| > PendingLimit {
      PrefixOfSubsequence(pending, jobs, PendingLimit);
    }
  }
}
