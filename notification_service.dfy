/**
 * The daily-reminder side of the notification service: when the next
 * reminder fires, whether it is suppressed, which message it carries and
 * whether it goes out as a browser notification or as a toast.
 *
 * Time is a local day number plus milliseconds since that day's midnight;
 * the browser's Notification support and permission, and the random
 * activity pick, are parameters.
 */
module NotificationService {
  import opened Js

  const MsPerMinute := 60000
  const MsPerDay := 86400000

  /** A moment: the local day and the milliseconds elapsed since its midnight. */
  datatype Instant = Instant(day: int, ms: int)

  predicate ValidInstant(t: Instant)
  {
    0 <= t.ms < MsPerDay
  }

  /** Milliseconds on one continuous time line. */
  function Absolute(t: Instant): int
  {
    t.day * MsPerDay + t.ms
  }

  /** The `[hours, minutes]` a reminder time string splits into. */
  datatype ClockTime = ClockTime(hours: nat, minutes: nat)

  predicate ValidClock(c: ClockTime)
  {
    c.hours < 24 && c.minutes < 60
  }

  /** The offset `setHours(hours, minutes, 0, 0)` puts on today's midnight. */
  function Offset(c: ClockTime): nat
  {
    (c.hours * 60 + c.minutes) * MsPerMinute
  }

  lemma ValidClockWithinDay(c: ClockTime)
    requires ValidClock(c)
    ensures Offset(c) < MsPerDay
  {
  }

  // ---------------------------------------------------------------------
  // Reading "HH:MM"

  predicate IsColon(ch: char)
  {
    ch == ':'
  }

  /**
   * `time.split(':').map(Number)` read as `[hours, minutes]`, for times
   * whose two leading fields are non-empty runs of digits.
   */
  function ParseTime(s: string): (r: Option<ClockTime>)
    ensures r.Some? ==> exists i :: 0 <= i < |s| && s[i] == ':' && IsDigits(s[..i]) && r.value.hours == DecimalValue(s[..i])
  {
    var i := FindIndex(s, IsColon);
    if i < 1 then None
    else
      var rest := s[i + 1..];
      var j := FindIndex(rest, IsColon);
      var minutes := if j < 0 then rest else rest[..j];
      if IsDigits(s[..i]) && |minutes| > 0 && IsDigits(minutes)
      then Some(ClockTime(DecimalValue(s[..i]), DecimalValue(minutes)))
      else None
  }

  /** The "HH:MM" form a time input stores. */
  function FormatClock(c: ClockTime): (s: string)
    ensures |s| >= 5
  {
    PadStart2(c.hours) + ":" + PadStart2(c.minutes)
  }

  /** A stored "HH:MM" is read back as the same hours and minutes. */
  lemma ParseFormatRoundTrip(c: ClockTime)
    ensures ParseTime(FormatClock(c)) == Some(c)
  {
    var h, m := PadStart2(c.hours), PadStart2(c.minutes);
    var s := FormatClock(c);
    assert s[|h|] == ':';
    assert forall k :: 0 <= k < |h| ==> s[k] == h[k] && !IsColon(s[k]);
    assert FindIndex(s, IsColon) == |h|;
    assert s[..|h|] == h;
    assert s[|h| + 1..] == m;
    assert forall k :: 0 <= k < |m| ==> !IsColon(m[k]);
    assert FindIndex(m, IsColon) == -1;
  }

  /** The fallback reminder time. */
  const DefaultTime := "19:00"

  // ---------------------------------------------------------------------
  // Next fire time

  /**
   * The absolute time `scheduleNextReminder` aims at: today at the
   * reminder time if that is strictly later than now, otherwise one day
   * later.
   */
  function NextFire(now: Instant, c: ClockTime): (target: int)
    requires ValidInstant(now)
    ensures target > Absolute(now)
  {
    var today := now.day * MsPerDay + Offset(c);
    if today <= Absolute(now) then today + MsPerDay else today
  }

  lemma MulDayOrder(a: int, b: int)
    requires a * MsPerDay < b * MsPerDay
    ensures a < b
  {
  }

  /**
   * For a valid reminder time the timer delay is positive and at most one
   * day, the target falls at the reminder time of its day, and it is the
   * earliest moment after now that does.
   */
  lemma {:induction false} NextFireIsEarliest(now: Instant, c: ClockTime, t: int)
    requires ValidInstant(now) && ValidClock(c)
    ensures 0 < NextFire(now, c) - Absolute(now) <= MsPerDay
    ensures NextFire(now, c) % MsPerDay == Offset(c)
    ensures Absolute(now) < t < NextFire(now, c) ==> t % MsPerDay != Offset(c)
  {
    ValidClockWithinDay(c);
    var target := NextFire(now, c);
    var k := if now.day * MsPerDay + Offset(c) <= Absolute(now) then now.day + 1 else now.day;
    assert target == k * MsPerDay + Offset(c);
    if Absolute(now) < t < target && t % MsPerDay == Offset(c) {
      var q := t / MsPerDay;
      assert t == q * MsPerDay + Offset(c);
      assert q * MsPerDay < k * MsPerDay;
      MulDayOrder(q, k);
      assert false;
    }
  }

  /** A reminder time exactly equal to now waits a full day. */
  lemma EqualTimeGoesToTomorrow(now: Instant, c: ClockTime)
    requires ValidInstant(now) && now.ms == Offset(c)
    ensures NextFire(now, c) == Absolute(now) + MsPerDay
  {
  }

  // ---------------------------------------------------------------------
  // Messages and delivery

  const PracticeMessage := "Time for your daily language practice! 📚"

  /** `messages[activityType] || messages.practice`. */
  function MessageFor(activityType: string): (m: string)
    ensures activityType !in {"lessons", "flashcards", "speaking"} ==> m == PracticeMessage
    ensures activityType in {"lessons", "flashcards", "speaking"} ==> m != PracticeMessage
  {
    match activityType
    case "lessons" => "Don't forget to complete today's lesson! 🎓"
    case "flashcards" => "Review your flashcards to reinforce learning! 🧠"
    case "speaking" => "Practice speaking to improve pronunciation! 🎤"
    case _ => PracticeMessage
  }

  /** What the browser offers: Notification support, its permission, and whether construction succeeds. */
  datatype Environment = Environment(supported: bool, permission: string, constructs: bool)

  datatype Channel = BrowserNotification | ToastNotification

  /** `showBrowserNotification` returns a notification object exactly in this case. */
  predicate ShowsNotification(env: Environment)
  {
    env.supported && env.permission == "granted" && env.constructs
  }

  datatype Delivery = Delivery(sent: bool, channel: Channel, title: string, message: string)

  /** Either channel carries the message; the result always reports it as sent. */
  function Deliver(env: Environment, title: string, message: string): (d: Delivery)
    ensures d.sent && d.title == title && d.message == message
    ensures d.channel == BrowserNotification <==> ShowsNotification(env)
  {
    Delivery(true, if ShowsNotification(env) then BrowserNotification else ToastNotification, title, message)
  }

  /** `sendDailyReminder(activityType)`. */
  function SendDailyReminder(activityType: string, env: Environment): (d: Delivery)
    ensures d.sent && d.title == "LinguaFlow Reminder" && d.message == MessageFor(activityType)
    ensures d.channel == BrowserNotification <==> ShowsNotification(env)
  {
    Deliver(env, "LinguaFlow Reminder", MessageFor(activityType))
  }

  /** The text of `sendStreakReminder(streakDays)`. */
  function StreakMessage(streakDays: nat): (m: string)
    ensures |m| > 10 + |NatToString(streakDays)|
    ensures m[..10] == "Keep your "
    ensures m[10..10 + |NatToString(streakDays)|] == NatToString(streakDays)
    ensures DecimalValue(m[10..10 + |NatToString(streakDays)|]) == streakDays
  {
    DecimalRoundTrip(streakDays);
    "Keep your " + NatToString(streakDays) + "-day streak alive! 🔥"
  }

  /** `sendStreakReminder(streakDays)`. */
  function SendStreakReminder(streakDays: nat, env: Environment): (d: Delivery)
    ensures d.sent && d.title == "Streak Alert" && d.message == StreakMessage(streakDays)
    ensures d.channel == BrowserNotification <==> ShowsNotification(env)
  {
    Deliver(env, "Streak Alert", StreakMessage(streakDays))
  }

  /** `getPermissionStatus()`. */
  function PermissionStatus(env: Environment): (s: string)
    ensures !env.supported ==> s == "unsupported"
    ensures env.supported ==> s == env.permission
  {
    if env.supported then env.permission else "unsupported"
  }

  // ---------------------------------------------------------------------
  // Initialisation and the unread flag

  /** The `dailyPractice` preferences a progress record may carry. */
  datatype DailyPractice = DailyPractice(
    lastPracticeDay: Option<int>,
    preferredReminderTime: Option<string>,
    enabledActivities: Option<seq<string>>)

  /**
   * The time and activities `initializeNotifications` schedules with: the
   * stored values under `||`, so an empty time string falls back to 19:00
   * while an empty activity list (a truthy array) is kept.
   */
  function InitialSchedule(dp: Option<DailyPractice>): (r: (string, seq<string>))
    ensures dp.None? ==> r == (DefaultTime, ["lessons"])
    ensures dp.Some? && dp.value.preferredReminderTime.Some? && dp.value.preferredReminderTime.value != "" ==>
              r.0 == dp.value.preferredReminderTime.value
    ensures dp.Some? && (dp.value.preferredReminderTime.None? || dp.value.preferredReminderTime.value == "") ==>
              r.0 == DefaultTime
    ensures dp.Some? && dp.value.enabledActivities.Some? ==> r.1 == dp.value.enabledActivities.value
    ensures dp.Some? && dp.value.enabledActivities.None? ==> r.1 == ["lessons"]
    ensures r.0 != ""
  {
    var time := if dp.Some? && dp.value.preferredReminderTime.Some? && dp.value.preferredReminderTime.value != ""
                then dp.value.preferredReminderTime.value else DefaultTime;
    var activities := if dp.Some? && dp.value.enabledActivities.Some?
                      then dp.value.enabledActivities.value else ["lessons"];
    (time, activities)
  }

  /** `progress.dailyPractice?.lastPracticeDate`. */
  function LastPracticeDay(dp: Option<DailyPractice>): Option<int>
  {
    if dp.Some? then dp.value.lastPracticeDay else None
  }

  /** `hasUnreadReminders`: the last practice day is not today. */
  predicate HasUnreadReminders(dp: Option<DailyPractice>, today: int)
  {
    LastPracticeDay(dp) != Some(today)
  }

  /**
   * A progress record without `dailyPractice` (the only shape the progress
   * store produces) always shows unread reminders and is scheduled with
   * the defaults.
   */
  lemma NoDailyPracticeMeansDefaults(today: int)
    ensures HasUnreadReminders(None, today)
    ensures InitialSchedule(None) == (DefaultTime, ["lessons"])
    ensures ParseTime(InitialSchedule(None).0) == Some(ClockTime(19, 0))
  {
    assert DefaultTime == PadStart2(19) + ":" + PadStart2(0) by {
      assert NatToString(19) == "19";
    }
    ParseFormatRoundTrip(ClockTime(19, 0));
  }

  // ---------------------------------------------------------------------
  // The timer loop

  /**
   * The activity a firing names: `activities[pick]` for the random pick,
   * or `sendDailyReminder`'s default 'practice' when the list is empty and
   * the pick reads `undefined`.
   */
  function ActivityAt(activities: seq<string>, pick: nat): (a: string)
    requires |activities| > 0 ==> pick < |activities|
    ensures |activities| > 0 ==> a in activities
    ensures |activities| == 0 ==> a == "practice"
  {
    if |activities| == 0 then "practice" else activities[pick]
  }

  /** `scheduleReminders(time, activities)`: the timer state and every reminder it has sent. */
  class ReminderScheduler {
    var time: ClockTime
    var activities: seq<string>
    /** The absolute time the pending timeout fires. */
    var fireAt: int
    var sent: seq<Delivery>

    constructor (now: Instant, time: ClockTime, activities: seq<string>)
      requires ValidInstant(now)
      ensures this.time == time && this.activities == activities && sent == []
      ensures fireAt == NextFire(now, time) && fireAt > Absolute(now)
    {
      this.time := time;
      this.activities := activities;
      fireAt := NextFire(now, time);
      sent := [];
    }

    /**
     * The timeout callback, run at `now`: unless the last practice day is
     * today a reminder for the picked activity goes out; either way the
     * next timeout is set.
     */
    method Fire(now: Instant, lastPracticeDay: Option<int>, pick: nat, env: Environment)
      returns (reminder: Option<Delivery>)
      requires ValidInstant(now) && Absolute(now) >= fireAt
      requires |activities| > 0 ==> pick < |activities|
      modifies this
      ensures time == old(time) && activities == old(activities)
      ensures lastPracticeDay == Some(now.day) ==> reminder == None && sent == old(sent)
      ensures lastPracticeDay != Some(now.day) ==>
                reminder == Some(SendDailyReminder(ActivityAt(activities, pick), env))
                && sent == old(sent) + [reminder.value]
      ensures fireAt == NextFire(now, time) && fireAt > old(fireAt)
    {
      reminder := None;
      if lastPracticeDay != Some(now.day) {
        var d := SendDailyReminder(ActivityAt(activities, pick), env);
        sent := sent + [d];
        reminder := Some(d);
      }
      fireAt := NextFire(now, time);
    }
  }
}
