/**
 * The notification list view: the relative age shown for each entry, the
 * unread header, when "Mark All Read" is offered, what a click does, and the
 * icon and border chosen by type.
 */
module NotificationCenter {
  import opened Wrappers
  import opened JsText
  import opened UseNotifications

  const MsPerMinute := 60000
  const MsPerHour := 3600000
  const MsPerDay := 86400000
  const MsPerWeek := 604800000

  /** The bucket `formatDate` picks for an age of `diffMs` milliseconds. */
  datatype Age = JustNow | MinutesAgo(minutes: nat) | HoursAgo(hours: nat) | DaysAgo(days: nat) | OlderThanAWeek

  /**
   * `formatDate`'s if-chain over `Math.floor(ms / 60000)`, its `/ 60` and its
   * `/ 24` (the divisors are positive, so `/` here floors like `Math.floor`).
   */
  function AgeOf(diffMs: int): (a: Age)
    ensures a == JustNow <==> diffMs < MsPerMinute
    ensures a.MinutesAgo? <==> MsPerMinute <= diffMs < MsPerHour
    ensures a.HoursAgo? <==> MsPerHour <= diffMs < MsPerDay
    ensures a.DaysAgo? <==> MsPerDay <= diffMs < MsPerWeek
    ensures a == OlderThanAWeek <==> MsPerWeek <= diffMs
    ensures a.MinutesAgo? ==> 1 <= a.minutes < 60 && a.minutes == diffMs / MsPerMinute
    ensures a.HoursAgo? ==> 1 <= a.hours < 24 && a.hours == diffMs / MsPerHour
    ensures a.DaysAgo? ==> 1 <= a.days < 7 && a.days == diffMs / MsPerDay
  {
    var minutes := diffMs / 60000;
    var hours := minutes / 60;
    var days := hours / 24;
    FloorComposes(diffMs);
    if minutes < 1 then JustNow
    else if minutes < 60 then MinutesAgo(minutes)
    else if hours < 24 then HoursAgo(hours)
    else if days < 7 then DaysAgo(days)
    else OlderThanAWeek
  }

  /** Flooring to minutes, then hours, then days is flooring straight to hours and days. */
  lemma FloorComposes(ms: int)
    ensures ms / 60000 / 60 == ms / 3600000
    ensures ms / 60000 / 60 / 24 == ms / 86400000
  {
    var m := ms / 60000;
    var h := m / 60;
    var d := h / 24;
    assert ms == 60000 * m + ms % 60000;
    assert m == 60 * h + m % 60;
    assert h == 24 * d + h % 24;
    assert ms == 3600000 * h + (60000 * (m % 60) + ms % 60000);
    assert ms == 86400000 * d + (3600000 * (h % 24) + 60000 * (m % 60) + ms % 60000);
  }

  /** `formatDate`; `localeDate` is what `toLocaleDateString` renders for entries a week old or more. */
  function FormatDate(diffMs: int, localeDate: string): string {
    match AgeOf(diffMs)
    case JustNow => "Just now"
    case MinutesAgo(m) => NatToString(m) + "m ago"
    case HoursAgo(h) => NatToString(h) + "h ago"
    case DaysAgo(d) => NatToString(d) + "d ago"
    case OlderThanAWeek => localeDate
  }

  /** The label for each range of ages; a date in the future is "Just now". */
  lemma FormatDateRanges(diffMs: int, localeDate: string)
    ensures diffMs < 60000 ==> FormatDate(diffMs, localeDate) == "Just now"
    ensures 60000 <= diffMs < 3600000 ==>
              FormatDate(diffMs, localeDate) == NatToString(diffMs / 60000) + "m ago" && 1 <= diffMs / 60000 <= 59
    ensures 3600000 <= diffMs < 86400000 ==>
              FormatDate(diffMs, localeDate) == NatToString(diffMs / 3600000) + "h ago" && 1 <= diffMs / 3600000 <= 23
    ensures 86400000 <= diffMs < 604800000 ==>
              FormatDate(diffMs, localeDate) == NatToString(diffMs / 86400000) + "d ago" && 1 <= diffMs / 86400000 <= 6
    ensures 604800000 <= diffMs ==> FormatDate(diffMs, localeDate) == localeDate
  {
    var a := AgeOf(diffMs);
  }

  /** The header text: the number of unread notifications. */
  function UnreadHeader(ns: seq<Notification>): string {
    NatToString(UnreadCount(ns)) + " unread notifications"
  }

  /** `parseInt` of the header gives back the unread count. */
  lemma UnreadHeaderCount(ns: seq<Notification>)
    ensures ParseInt(UnreadHeader(ns)) == Some(UnreadCount(ns) as int)
  {
    var digits := NatToString(UnreadCount(ns));
    var header := UnreadHeader(ns);
    assert header[..|digits|] == digits;
    assert header[|digits|] == ' ';
    ParseIntOfPrefix(digits, " unread notifications");
    ParseIntOfNatToString(UnreadCount(ns));
  }

  /** A digit string followed by a character that is neither a digit nor a hex marker parses as the digits alone. */
  lemma ParseIntOfPrefix(digits: string, rest: string)
    requires |digits| > 0 && forall i :: 0 <= i < |digits| ==> IsDigit(digits[i])
    requires |rest| > 0 && !IsDigit(rest[0]) && rest[0] != 'x' && rest[0] != 'X'
    ensures ParseInt(digits + rest) == ParseInt(digits)
  {
    assert (digits + rest)[0] == digits[0];
    ParseIntLeadingDigit(digits + rest);
    ParseUnsignedOfPrefix(digits, rest);
    ParseIntOfDigits(digits);
  }

  lemma ParseUnsignedOfPrefix(digits: string, rest: string)
    requires |digits| > 0 && forall i :: 0 <= i < |digits| ==> IsDigit(digits[i])
    requires |rest| > 0 && !IsDigit(rest[0]) && rest[0] != 'x' && rest[0] != 'X'
    ensures ParseUnsigned(digits + rest) == Some(DigitsValue(digits, 10))
  {
    var s := digits + rest;
    assert |s| >= 2 ==> s[1] == (if |digits| >= 2 then digits[1] else rest[0]);
    assert !(|s| >= 2 && s[0] == '0' && (s[1] == 'x' || s[1] == 'X'));
    DigitRunOfPrefix(digits, rest);
    assert s[..|digits|] == digits;
  }

  lemma {:induction false} DigitRunOfPrefix(digits: string, rest: string)
    requires forall i :: 0 <= i < |digits| ==> IsDigit(digits[i])
    requires |rest| > 0 && !IsDigit(rest[0])
    ensures DigitRun(digits + rest, 10) == |digits|
  {
    if digits == [] {
      assert digits + rest == rest;
    } else {
      assert (digits + rest)[1..] == digits[1..] + rest;
      DigitRunOfPrefix(digits[1..], rest);
    }
  }

  /** `notifications.some(n => !n.is_read)`: whether "Mark All Read" is offered. */
  function ShowMarkAll(ns: seq<Notification>): (shown: bool)
    ensures shown <==> UnreadCount(ns) > 0
  {
    exists i :: 0 <= i < |ns| && IsUnread(ns[i])
  }

  /** A click on `n` calls `markAsRead(n.id)` exactly when `n` is unread. */
  function ClickAction(n: Notification): (target: Option<string>)
    ensures target.Some? <==> IsUnread(n)
    ensures target.Some? ==> target.value == n.id
  {
    if IsUnread(n) then Some(n.id) else None
  }

  /** The list after a click on entry `i` whose `markAsRead` call, if any, succeeds. */
  function AfterClick(ns: seq<Notification>, i: nat): seq<Notification>
    requires i < |ns|
  {
    match ClickAction(ns[i])
    case Some(id) => MarkRead(ns, id)
    case None => ns
  }

  /**
   * A click on an unread entry marks it read and lowers the header count; a
   * click on a read entry makes no call and leaves the list as it was.
   */
  lemma ClickLowersCount(ns: seq<Notification>, i: nat)
    requires i < |ns|
    ensures IsUnread(ns[i]) ==>
              && UnreadCount(AfterClick(ns, i)) < UnreadCount(ns)
              && !IsUnread(AfterClick(ns, i)[i])
    ensures !IsUnread(ns[i]) ==> AfterClick(ns, i) == ns
  {
    if IsUnread(ns[i]) {
      MarkReadDecreases(ns, i);
    }
  }

  datatype NotificationIcon = CheckCircleIcon | AlertIcon | CrossIcon | InfoIcon

  function IconOf(kind: string): NotificationIcon {
    match kind
    case "success" => CheckCircleIcon
    case "warning" => AlertIcon
    case "error" => CrossIcon
    case _ => InfoIcon
  }

  function BorderOf(kind: string): string {
    match kind
    case "success" => "border-emerald-500/30"
    case "warning" => "border-amber-500/30"
    case "error" => "border-red-500/30"
    case _ => "border-blue-500/30"
  }

  /** Any type other than success, warning and error, `info` included, is drawn as info with a blue border. */
  lemma UnknownKindIsInfo(kind: string)
    ensures IconOf(kind) == InfoIcon <==> kind !in ["success", "warning", "error"]
    ensures BorderOf(kind) == "border-blue-500/30" <==> IconOf(kind) == InfoIcon
  {
  }
}
