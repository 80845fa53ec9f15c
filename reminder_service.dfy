/**
 * The reminder-settings service: settings kept in browser storage and
 * overlaid on a module-level defaults object, the single-field setters,
 * the test reminder and the daily-practice queries.
 *
 * When nothing readable is stored, `getReminderSettings` returns the
 * defaults object itself, so a setter that assigns a field of what it read
 * changes the defaults too; the store below keeps the defaults as a field
 * for that reason. Storage failures are a parameter of each save.
 */
module ReminderService {
  import opened Js
  import Notify = NotificationService
  import Progress = UserProgressService

  datatype Settings = Settings(
    enabled: bool,
    time: string,
    activities: seq<string>,
    weekdaysOnly: bool,
    streakReminders: bool)

  /** The keys a settings object supplies; `None` is an absent key. */
  datatype SettingsPatch = SettingsPatch(
    enabled: Option<bool>,
    time: Option<string>,
    activities: Option<seq<string>>,
    weekdaysOnly: Option<bool>,
    streakReminders: Option<bool>)

  /** `defaultSettings` as the module defines it. */
  const DefaultSettings := Settings(true, "19:00", ["lessons", "flashcards", "speaking"], false, true)

  /** `{ ...s, ...p }`. */
  function Merge(s: Settings, p: SettingsPatch): Settings
  {
    Settings(
      if p.enabled.Some? then p.enabled.value else s.enabled,
      if p.time.Some? then p.time.value else s.time,
      if p.activities.Some? then p.activities.value else s.activities,
      if p.weekdaysOnly.Some? then p.weekdaysOnly.value else s.weekdaysOnly,
      if p.streakReminders.Some? then p.streakReminders.value else s.streakReminders)
  }

  /** Every key of a settings object, as `JSON.stringify` writes it. */
  function Full(s: Settings): SettingsPatch
  {
    SettingsPatch(Some(s.enabled), Some(s.time), Some(s.activities), Some(s.weekdaysOnly), Some(s.streakReminders))
  }

  /** `q` spread after `p`: the keys of `q` win. */
  function Overlay(p: SettingsPatch, q: SettingsPatch): SettingsPatch
  {
    SettingsPatch(
      if q.enabled.Some? then q.enabled else p.enabled,
      if q.time.Some? then q.time else p.time,
      if q.activities.Some? then q.activities else p.activities,
      if q.weekdaysOnly.Some? then q.weekdaysOnly else p.weekdaysOnly,
      if q.streakReminders.Some? then q.streakReminders else p.streakReminders)
  }

  /** Two successive overlays are one overlay of the combined keys. */
  lemma MergeCompose(s: Settings, p: SettingsPatch, q: SettingsPatch)
    ensures Merge(Merge(s, p), q) == Merge(s, Overlay(p, q))
  {
  }

  /** A saved object is read back whole, whatever the defaults are. */
  lemma MergeFull(base: Settings, s: Settings)
    ensures Merge(base, Full(s)) == s
  {
  }

  /** What `localStorage` holds under the settings key: JSON of some keys, or text `JSON.parse` rejects. */
  datatype Stored = Json(patch: SettingsPatch) | Malformed

  /** The activity `sendTestReminder` names: the first one unless it is missing or empty. */
  function TestActivity(activities: seq<string>): (a: string)
    ensures |activities| > 0 && activities[0] != "" ==> a == activities[0]
    ensures |activities| == 0 || activities[0] == "" ==> a == "practice"
    ensures a != ""
  {
    if |activities| > 0 && activities[0] != "" then activities[0] else "practice"
  }

  datatype TestResult = Disabled | Sent(delivery: Notify.Delivery)

  /** What `checkTodaysPractice` reports. */
  datatype PracticeStatus = PracticeStatus(completed: bool, streak: int, lastPracticeDay: Option<int>)

  /** `checkTodaysPractice()` for a progress record's streak and daily-practice preferences. */
  function CheckTodaysPractice(currentStreak: int, dp: Option<Notify.DailyPractice>, today: int): (r: PracticeStatus)
    ensures r.completed <==> Notify.LastPracticeDay(dp) == Some(today)
    ensures r.completed <==> !Notify.HasUnreadReminders(dp, today)
    ensures r.streak == currentStreak && r.lastPracticeDay == Notify.LastPracticeDay(dp)
  {
    PracticeStatus(Notify.LastPracticeDay(dp) == Some(today), currentStreak, Notify.LastPracticeDay(dp))
  }

  /** The report `markPracticeComplete` would build after the progress call. */
  datatype Completion = Completion(completed: bool, streak: int, xpEarned: int, streakNotified: bool)

  /**
   * The tail of `markPracticeComplete`: the streak notification goes out on
   * a positive multiple of seven days, the same milestone rule the
   * progress store announces, and the XP reported is always 25.
   */
  function CompletionFor(streak: int): (c: Completion)
    ensures c.completed && c.streak == streak && c.xpEarned == 25
    ensures c.streakNotified <==> Progress.IsStreakMilestone(streak)
  {
    Completion(true, streak, 25, streak > 0 && streak % 7 == 0)
  }

  /**
   * `markPracticeComplete(activityType)`: its first step calls a method the
   * progress store does not define, so it always fails before the tail.
   */
  function MarkPracticeComplete(activityType: string): (r: Result<Completion>)
    ensures r.Err? && r.error == MissingMethod("markDailyPracticeComplete")
  {
    Err(MissingMethod("markDailyPracticeComplete"))
  }

  class ReminderStore {
    /** The module-level `defaultSettings` object. */
    var defaults: Settings
    /** The item under 'linguaflow-reminders'. */
    var storage: Option<Stored>

    constructor (storage: Option<Stored>)
      ensures defaults == DefaultSettings && this.storage == storage
    {
      defaults := DefaultSettings;
      this.storage := storage;
    }

    /** Whether a read hands out the defaults object itself. */
    predicate ReadsDefaults()
      reads this
    {
      !(storage.Some? && storage.value.Json?)
    }

    /**
     * `getReminderSettings()`: the defaults overlaid by the stored keys, or
     * the defaults when nothing is stored or the stored text is malformed.
     */
    function Current(): (s: Settings)
      reads this
      ensures ReadsDefaults() ==> s == defaults
      ensures !ReadsDefaults() ==> s == Merge(defaults, storage.value.patch)
    {
      if storage.Some? && storage.value.Json? then Merge(defaults, storage.value.patch) else defaults
    }

    /** `saveReminderSettings(settings)`; a failing `setItem` leaves storage as it was. */
    method Save(settings: Settings, saveSucceeds: bool)
      modifies this
      ensures defaults == old(defaults)
      ensures storage == if saveSucceeds then Some(Json(Full(settings))) else old(storage)
    {
      if saveSucceeds {
        storage := Some(Json(Full(settings)));
      }
    }

    /**
     * `updateSettings(newSettings)`: the current settings overlaid by the new
     * keys are saved, then the progress call fails on a method the progress
     * store does not define.
     */
    method UpdateSettings(newSettings: SettingsPatch, saveSucceeds: bool) returns (r: Result<Settings>)
      modifies this
      ensures r == Err(MissingMethod("updateReminderPreferences"))
      ensures defaults == old(defaults)
      ensures saveSucceeds ==> Current() == Merge(old(Current()), newSettings)
      ensures !saveSucceeds ==> storage == old(storage)
    {
      var updated := Merge(Current(), newSettings);
      Save(updated, saveSucceeds);
      r := Err(MissingMethod("updateReminderPreferences"));
    }

    /** `toggleReminders(enabled)`. */
    method ToggleReminders(enabled: bool, saveSucceeds: bool) returns (settings: Settings)
      modifies this
      ensures settings == old(Current()).(enabled := enabled)
      ensures defaults == if old(ReadsDefaults()) then old(defaults).(enabled := enabled) else old(defaults)
      ensures saveSucceeds || old(ReadsDefaults()) ==> Current() == settings
      ensures !saveSucceeds ==> storage == old(storage)
    {
      settings := Current().(enabled := enabled);
      if ReadsDefaults() {
        defaults := settings;
      }
      Save(settings, saveSucceeds);
    }

    /** `setReminderTime(time)`. */
    method SetReminderTime(time: string, saveSucceeds: bool) returns (settings: Settings)
      modifies this
      ensures settings == old(Current()).(time := time)
      ensures defaults == if old(ReadsDefaults()) then old(defaults).(time := time) else old(defaults)
      ensures saveSucceeds || old(ReadsDefaults()) ==> Current() == settings
      ensures !saveSucceeds ==> storage == old(storage)
    {
      settings := Current().(time := time);
      if ReadsDefaults() {
        defaults := settings;
      }
      Save(settings, saveSucceeds);
    }

    /** `updateActivities(activities)`. */
    method UpdateActivities(activities: seq<string>, saveSucceeds: bool) returns (settings: Settings)
      modifies this
      ensures settings == old(Current()).(activities := activities)
      ensures defaults == if old(ReadsDefaults()) then old(defaults).(activities := activities) else old(defaults)
      ensures saveSucceeds || old(ReadsDefaults()) ==> Current() == settings
      ensures !saveSucceeds ==> storage == old(storage)
    {
      settings := Current().(activities := activities);
      if ReadsDefaults() {
        defaults := settings;
      }
      Save(settings, saveSucceeds);
    }

    /** `sendTestReminder()`: nothing is sent while reminders are disabled. */
    function SendTestReminder(env: Notify.Environment): (r: TestResult)
      reads this
      ensures !Current().enabled <==> r == Disabled
      ensures r.Sent? ==> r.delivery == Notify.SendDailyReminder(TestActivity(Current().activities), env)
    {
      var settings := Current();
      if !settings.enabled then Disabled
      else Sent(Notify.SendDailyReminder(TestActivity(settings.activities), env))
    }
  }

  /**
   * With nothing stored, a disable through the setter also disables the
   * defaults, so the shipped defaults are no longer what a later read
   * without storage returns.
   */
  method DisableWithoutStorage() returns (store: ReminderStore)
    ensures store.storage == None && !store.Current().enabled
    ensures store.defaults != DefaultSettings
  {
    store := new ReminderStore(None);
    var _ := store.ToggleReminders(false, false);
  }
}
