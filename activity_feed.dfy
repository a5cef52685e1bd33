/**
 * The text of one item of the activity feed
 * (frontend/src/components/ActivityFeed.js): how long ago it happened, its
 * signed points, and whether its reason is shown.
 */
module ActivityFeed {
  import opened Wrappers
  import opened JsText
  import opened AdminControls

  const MsPerMinute: int := 1000 * 60
  const MinutesPerHour: int := 60
  const MinutesPerDay: int := 1440

  /**
   * `Math.floor((now - date) / (1000 * 60))`: whole minutes elapsed, rounded
   * down, negative for a time in the future.
   */
  function DiffInMinutes(nowMs: int, timestampMs: int): (d: int)
    ensures MsPerMinute * d <= nowMs - timestampMs < MsPerMinute * (d + 1)
  {
    (nowMs - timestampMs) / MsPerMinute
  }

  /** The four kinds of label, with the number each one shows. */
  datatype Age = JustNow | MinutesAgo(minutes: nat) | HoursAgo(hours: nat) | DaysAgo(days: nat)

  /** The branch of `formatTime` that a number of elapsed minutes takes. */
  function AgeOf(d: int): (a: Age)
    ensures a.JustNow? <==> d < 1
    ensures a.MinutesAgo? ==> 1 <= d < MinutesPerHour && a.minutes == d
    ensures a.HoursAgo? ==> MinutesPerHour <= d < MinutesPerDay && 1 <= a.hours < 24
    ensures a.HoursAgo? ==> MinutesPerHour * a.hours <= d < MinutesPerHour * (a.hours + 1)
    ensures a.DaysAgo? ==> MinutesPerDay <= d && 1 <= a.days
    ensures a.DaysAgo? ==> MinutesPerDay * a.days <= d < MinutesPerDay * (a.days + 1)
  {
    if d < 1 then JustNow
    else if d < MinutesPerHour then MinutesAgo(d)
    else if d < MinutesPerDay then HoursAgo(d / MinutesPerHour)
    else DaysAgo(d / MinutesPerDay)
  }

  const JustNowText: string := "Just now"
  const MinutesSuffix: string := "m ago"
  const HoursSuffix: string := "h ago"
  const DaysSuffix: string := "d ago"

  function Render(a: Age): string {
    match a
    case JustNow => JustNowText
    case MinutesAgo(n) => NatToString(n) + MinutesSuffix
    case HoursAgo(n) => NatToString(n) + HoursSuffix
    case DaysAgo(n) => NatToString(n) + DaysSuffix
  }

  /** `formatTime(timestamp)` at the moment `nowMs`. */
  function FormatTime(nowMs: int, timestampMs: int): string {
    Render(AgeOf(DiffInMinutes(nowMs, timestampMs)))
  }

  /** The number in front of a suffix, when everything in front of it is digits. */
  function NumberBefore(s: string, suffix: string): Option<nat> {
    if |s| > |suffix| && s[|s| - |suffix|..] == suffix && AllDigits(s[..|s| - |suffix|])
    then Some(DigitsValue(s[..|s| - |suffix|]))
    else None
  }

  /** Reads a label back. */
  function ParseAge(s: string): Option<Age> {
    if s == JustNowText then Some(JustNow)
    else match NumberBefore(s, MinutesSuffix)
      case Some(n) => Some(MinutesAgo(n))
      case None => match NumberBefore(s, HoursSuffix)
        case Some(n) => Some(HoursAgo(n))
        case None => match NumberBefore(s, DaysSuffix)
          case Some(n) => Some(DaysAgo(n))
          case None => None
  }

  lemma ReadsNumberBefore(n: nat, suffix: string)
    ensures NumberBefore(NatToString(n) + suffix, suffix) == Some(n)
  {
    var ds := NatToString(n);
    var s := ds + suffix;
    assert s[..|s| - |suffix|] == ds;
    assert s[|s| - |suffix|..] == suffix;
  }

  lemma OtherSuffixFails(n: nat, suffix: string, other: string)
    requires |other| == |suffix| > 0 && other[0] != suffix[0]
    ensures NumberBefore(NatToString(n) + suffix, other) == None
  {
    var s := NatToString(n) + suffix;
    assert s[|s| - |other|..][0] == suffix[0];
  }

  /** Every label reads back as the kind and number it was made from. */
  lemma ParseRender(a: Age)
    ensures ParseAge(Render(a)) == Some(a)
  {
    match a
    case JustNow =>
    case MinutesAgo(n) =>
      ReadsNumberBefore(n, MinutesSuffix);
      assert Render(a) != JustNowText by {
        assert Render(a)[|Render(a)| - 1] == 'o' != JustNowText[|JustNowText| - 1];
      }
    case HoursAgo(n) =>
      ReadsNumberBefore(n, HoursSuffix);
      OtherSuffixFails(n, HoursSuffix, MinutesSuffix);
      assert Render(a) != JustNowText by {
        assert Render(a)[|Render(a)| - 1] == 'o' != JustNowText[|JustNowText| - 1];
      }
    case DaysAgo(n) =>
      ReadsNumberBefore(n, DaysSuffix);
      OtherSuffixFails(n, DaysSuffix, MinutesSuffix);
      OtherSuffixFails(n, DaysSuffix, HoursSuffix);
      assert Render(a) != JustNowText by {
        assert Render(a)[|Render(a)| - 1] == 'o' != JustNowText[|JustNowText| - 1];
      }
  }

  /**
   * The label states the elapsed time to its unit: "Just now" under a
   * minute (and for a time in the future), whole minutes under an hour,
   * whole hours under a day, and whole days beyond.
   */
  lemma FormatTimeReadsBack(nowMs: int, timestampMs: int)
    ensures var d := DiffInMinutes(nowMs, timestampMs);
      match ParseAge(FormatTime(nowMs, timestampMs))
      case Some(JustNow) => nowMs - timestampMs < MsPerMinute
      case Some(MinutesAgo(n)) => 1 <= n < 60 && MsPerMinute * n <= nowMs - timestampMs < MsPerMinute * (n + 1)
      case Some(HoursAgo(h)) => 1 <= h < 24 && 60 * h <= d < 60 * (h + 1)
      case Some(DaysAgo(k)) => 1 <= k && 1440 * k <= d < 1440 * (k + 1)
      case None => false
  {
    ParseRender(AgeOf(DiffInMinutes(nowMs, timestampMs)));
  }

  /** `{activity.points > 0 ? '+' : ''}{activity.points}`. */
  function PointsLabel(points: int): (s: string)
    ensures s != [] && (s[0] == '+' <==> points > 0) && (s[0] == '-' <==> points < 0)
  {
    (if points > 0 then "+" else "") + IntToString(points)
  }

  /** The label reads back as the points, by `parseInt` and by `Number()` alike. */
  lemma PointsLabelRoundTrip(points: int)
    ensures ParseInt(PointsLabel(points)) == Int(points)
    ensures StringToNumber(PointsLabel(points)) == Int(points)
  {
    if points > 0 {
      PlusSignRoundTrip(points);
    } else {
      assert PointsLabel(points) == IntToString(points);
      IntToStringRoundTrip(points);
    }
  }

  lemma PlusSignRoundTrip(n: nat)
    ensures ParseInt("+" + NatToString(n)) == Int(n)
    ensures StringToNumber("+" + NatToString(n)) == Int(n)
  {
    SignedDigitsRead("+" + NatToString(n), NatToString(n));
  }

  /** `{activity.reason && ...}`: a reason is shown when there is one and it is not empty. */
  predicate ShowsReason(reason: Option<string>) {
    reason.Some? && reason.value != ""
  }

  /** A reason typed in the admin form is shown exactly when it has a character that is not white space. */
  lemma TypedReasonShown(typed: string)
    ensures ShowsReason(ReasonOf(typed)) <==> exists i :: 0 <= i < |typed| && !IsSpace(typed[i])
  {
  }
}
