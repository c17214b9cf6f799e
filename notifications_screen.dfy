/** The notifications screen (app/notifications.tsx): relative times, icons by type, and the tap
    handler. */
module NotificationsScreen {
  import opened Types
  import opened Text
  import NotificationStoreHook

  const MinuteMs: int := 60000
  const HourMs: int := 3600000
  const DayMs: int := 86400000

  /** The four shapes formatTime can produce. */
  datatype Age = JustNow | MinutesAgo(minutes: nat) | HoursAgo(hours: nat) | DaysAgo(days: nat)

  /** The bucket for a difference of `diff` milliseconds, with `Math.floor` division. A negative
      difference (a time in the future) is "Just now". */
  function AgeOf(diff: int): (a: Age)
    ensures a.JustNow? <==> diff < MinuteMs
    ensures a.MinutesAgo? <==> MinuteMs <= diff < HourMs
    ensures a.HoursAgo? <==> HourMs <= diff < DayMs
    ensures a.DaysAgo? <==> DayMs <= diff
    ensures a.MinutesAgo? ==> 1 <= a.minutes < 60 && a.minutes * MinuteMs <= diff < (a.minutes + 1) * MinuteMs
    ensures a.HoursAgo? ==> 1 <= a.hours < 24 && a.hours * HourMs <= diff < (a.hours + 1) * HourMs
    ensures a.DaysAgo? ==> 1 <= a.days && a.days * DayMs <= diff < (a.days + 1) * DayMs
  {
    var minutes := diff / MinuteMs;
    var hours := diff / HourMs;
    var days := diff / DayMs;
    if minutes < 1 then JustNow
    else if minutes < 60 then MinutesAgo(minutes)
    else if hours < 24 then HoursAgo(hours)
    else DaysAgo(days)
  }

  /** The text shown for a bucket. */
  function AgeText(a: Age): string {
    match a
    case JustNow => "Just now"
    case MinutesAgo(m) => NatToString(m) + "m ago"
    case HoursAgo(h) => NatToString(h) + "h ago"
    case DaysAgo(d) => NatToString(d) + "d ago"
  }

  /** formatTime. */
  function FormatTime(now: int, createdAt: int): string {
    AgeText(AgeOf(now - createdAt))
  }

  /** Reads a formatted age back: "Just now", or digits followed by "m ago", "h ago" or "d ago". */
  function ParseAge(s: string): Option<Age> {
    if s == "Just now" then Some(JustNow)
    else if |s| < 6 || !AllDigits(s[..|s| - 5]) || s[|s| - 4..] != " ago" then None
    else
      var n := DecimalValue(s[..|s| - 5]);
      var unit := s[|s| - 5];
      if unit == 'm' then Some(MinutesAgo(n))
      else if unit == 'h' then Some(HoursAgo(n))
      else if unit == 'd' then Some(DaysAgo(n))
      else None
  }

  /** The text names its bucket and its number unambiguously: reading it back gives the bucket. */
  lemma AgeTextRoundTrip(a: Age)
    ensures ParseAge(AgeText(a)) == Some(a)
  {
    match a
    case JustNow =>
    case MinutesAgo(m) =>
      NumberWithSuffix(m, "m ago");
      assert "m ago"[0] == 'm';
    case HoursAgo(h) =>
      NumberWithSuffix(h, "h ago");
      assert "h ago"[0] == 'h';
    case DaysAgo(d) =>
      NumberWithSuffix(d, "d ago");
      assert "d ago"[0] == 'd';
  }

  lemma NumberWithSuffix(n: nat, suffix: string)
    requires |suffix| == 5 && suffix[1..] == " ago"
    ensures var s := NatToString(n) + suffix;
            s != "Just now" && |s| >= 6 && s[..|s| - 5] == NatToString(n) && s[|s| - 5] == suffix[0]
            && s[|s| - 4..] == " ago" && AllDigits(s[..|s| - 5]) && DecimalValue(s[..|s| - 5]) == n
  {
    var s := NatToString(n) + suffix;
    assert s[..|s| - 5] == NatToString(n);
    assert s[|s| - 4..] == suffix[1..];
    assert s[0] != 'J';
    DecimalRoundTrip(n);
  }

  /** Two times that format alike fall in the same bucket with the same count. */
  lemma FormatTimeInjectiveOnAge(now: int, t1: int, t2: int)
    requires FormatTime(now, t1) == FormatTime(now, t2)
    ensures AgeOf(now - t1) == AgeOf(now - t2)
  {
    AgeTextRoundTrip(AgeOf(now - t1));
    AgeTextRoundTrip(AgeOf(now - t2));
  }

  datatype Glyph = PackageGlyph | BellGlyph | CreditCardGlyph | InfoGlyph

  datatype Icon = Icon(glyph: Glyph, color: Color)

  /** getIcon. */
  function IconFor(kind: string): (r: Icon)
    ensures kind == "delivery_update" ==> r == Icon(PackageGlyph, Primary)
    ensures kind == "new_order" ==> r == Icon(BellGlyph, Secondary)
    ensures kind == "payment" ==> r == Icon(CreditCardGlyph, Success)
    ensures r.glyph == InfoGlyph <==> kind !in {"delivery_update", "new_order", "payment"}
    ensures r.glyph == InfoGlyph ==> r.color == TextLight
  {
    if kind == "delivery_update" then Icon(PackageGlyph, Primary)
    else if kind == "new_order" then Icon(BellGlyph, Secondary)
    else if kind == "payment" then Icon(CreditCardGlyph, Success)
    else Icon(InfoGlyph, TextLight)
  }

  /** The card's onPress: the item is marked read first; the screen then navigates to the delivery
      only when the item carries a non-empty delivery id. The route is returned. */
  method OnNotificationPress(store: NotificationStoreHook.NotificationStore, item: NotificationStoreHook.Notification)
    returns (route: Option<string>)
    requires store.Valid()
    modifies store
    ensures store.Valid()
    ensures store.notifications == NotificationStoreHook.MarkedRead(old(store.notifications), item.id)
    ensures route.Some? <==> item.deliveryId.Some? && item.deliveryId.value != ""
    ensures route.Some? ==> route.value == "/delivery/" + item.deliveryId.value
  {
    store.MarkAsRead(item.id);
    if item.deliveryId.Some? && item.deliveryId.value != "" {
      route := Some("/delivery/" + item.deliveryId.value);
    } else {
      route := None;
    }
  }
}
