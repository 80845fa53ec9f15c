/**
 * The reminder settings screen: a local copy of the settings, controls that
 * each change one field of it and then save the whole copy through the
 * reminder store, the activity list toggle, and the permission gate in
 * front of the test reminder.
 */
module NotificationSettings {
  import opened Js
  import opened ReminderService
  import Notify = NotificationService

  /** The filter predicate that drops `activity`. */
  function Other(activity: string): string -> bool
  {
    (x: string) => x != activity
  }

  /**
   * The activity list after a click on `activity`: every occurrence is
   * removed when it is listed, and otherwise it is appended at the end.
   */
  function ToggleActivity(activities: seq<string>, activity: string): (r: seq<string>)
    ensures activity in activities ==> activity !in r && |r| < |activities|
    ensures activity in activities ==> forall x :: x != activity ==> (x in r <==> x in activities)
    ensures activity !in activities ==> r == activities + [activity]
  {
    if activity in activities then
      FilterShorter(activities, Other(activity), activity);
      Filter(activities, Other(activity))
    else activities + [activity]
  }

  /** A list without duplicates stays without duplicates. */
  lemma ToggleKeepsNoDuplicates(activities: seq<string>, activity: string)
    requires NoDuplicates(activities)
    ensures NoDuplicates(ToggleActivity(activities, activity))
  {
    if activity in activities {
      FilterNoDuplicates(activities, Other(activity));
    }
  }

  /** In a list without duplicates, a listed element occurs once. */
  lemma {:induction false} OccursOnce(s: seq<string>, x: string)
    requires NoDuplicates(s) && x in s
    ensures multiset(s)[x] == 1
  {
    assert s == [s[0]] + s[1..];
    if s[0] == x {
      forall j | 0 <= j < |s[1..]| ensures s[1..][j] != x {
        assert s[1..][j] == s[j + 1];
      }
    } else {
      assert NoDuplicates(s[1..]) by {
        forall i, j | 0 <= i < j < |s[1..]| ensures s[1..][i] != s[1..][j] {
          assert s[1..][i] == s[i + 1] && s[1..][j] == s[j + 1];
        }
      }
      OccursOnce(s[1..], x);
    }
  }

  /** Removing every occurrence of the last element of a duplicate-free list leaves the rest of it. */
  lemma DropLast(activities: seq<string>)
    requires NoDuplicates(activities) && |activities| > 0
    ensures Filter(activities, Other(activities[|activities| - 1])) == activities[..|activities| - 1]
  {
    var n := |activities|;
    var a := activities[n - 1];
    var front := activities[..n - 1];
    assert activities == front + [a];
    forall j | 0 <= j < |front| ensures Other(a)(front[j]) {
      assert front[j] == activities[j] && activities[j] != activities[n - 1];
    }
    FilterSnoc(front, a, Other(a));
    FilterAll(front, Other(a));
  }

  /** Clicking an unlisted activity twice gives back the list as it was. */
  lemma ToggleAbsentTwice(activities: seq<string>, activity: string)
    requires activity !in activities
    ensures ToggleActivity(ToggleActivity(activities, activity), activity) == activities
  {
    FilterAppend(activities, [activity], Other(activity));
    FilterAll(activities, Other(activity));
    assert Filter([activity], Other(activity)) == [];
  }

  /**
   * Clicking a listed activity twice on a duplicate-free list gives back
   * the same activities, but moves the clicked one to the end: the list is
   * the same exactly when it was already last.
   */
  lemma TogglePresentTwice(activities: seq<string>, activity: string)
    requires NoDuplicates(activities) && activity in activities
    ensures multiset(ToggleActivity(ToggleActivity(activities, activity), activity)) == multiset(activities)
    ensures ToggleActivity(ToggleActivity(activities, activity), activity) == activities
            <==> activities[|activities| - 1] == activity
  {
    var once := ToggleActivity(activities, activity);
    var twice := ToggleActivity(once, activity);
    assert twice == once + [activity];
    OccursOnce(activities, activity);
    forall x ensures multiset(twice)[x] == multiset(activities)[x] {
      FilterMultiset(activities, Other(activity), x);
    }
    assert multiset(twice) == multiset(activities);
    if activities[|activities| - 1] == activity {
      DropLast(activities);
      assert activities == activities[..|activities| - 1] + [activity];
    } else {
      assert twice[|twice| - 1] == activity;
    }
  }

  /** With the shipped activities, two clicks on "lessons" move it to the end. */
  lemma DoubleToggleReorders()
    ensures ToggleActivity(ToggleActivity(DefaultSettings.activities, "lessons"), "lessons")
            == ["flashcards", "speaking", "lessons"]
  {
    var once := ToggleActivity(DefaultSettings.activities, "lessons");
    assert once == ["flashcards", "speaking"] by {
      var p := Other("lessons");
      assert Filter(["speaking"], p) == ["speaking"] + Filter([], p);
      assert Filter(["flashcards", "speaking"], p) == ["flashcards"] + Filter(["speaking"], p);
      assert Filter(["lessons", "flashcards", "speaking"], p) == Filter(["flashcards", "speaking"], p);
    }
  }

  class SettingsPage {
    /** `localSettings`: the copy the controls edit. */
    var local: Settings

    /** The screen once the settings have loaded and been copied. */
    constructor (loaded: Settings)
      ensures local == loaded
    {
      local := loaded;
    }

    /**
     * `updateSettings(updated)` with the whole local copy: whatever the
     * store held, a successful save leaves it reading back exactly that
     * copy, and the progress call then fails.
     */
    method Persist(store: ReminderStore, saveSucceeds: bool) returns (r: Result<Settings>)
      modifies store
      ensures r == Err(MissingMethod("updateReminderPreferences"))
      ensures store.defaults == old(store.defaults)
      ensures saveSucceeds ==> store.Current() == local
      ensures !saveSucceeds ==> store.storage == old(store.storage)
    {
      var before := store.Current();
      r := store.UpdateSettings(Full(local), saveSucceeds);
      MergeFull(before, local);
    }

    /** `handleToggleReminders(!localSettings.enabled)`: only `enabled` changes. */
    method ToggleReminders(store: ReminderStore, saveSucceeds: bool) returns (r: Result<Settings>)
      modifies this, store
      ensures local == old(local).(enabled := !old(local).enabled)
      ensures r == Err(MissingMethod("updateReminderPreferences"))
      ensures store.defaults == old(store.defaults)
      ensures saveSucceeds ==> store.Current() == local
      ensures !saveSucceeds ==> store.storage == old(store.storage)
    {
      local := local.(enabled := !local.enabled);
      r := Persist(store, saveSucceeds);
    }

    /** `handleTimeChange(time)`; the time input is disabled while reminders are off. */
    method TimeChange(time: string, store: ReminderStore, saveSucceeds: bool) returns (r: Result<Settings>)
      requires local.enabled
      modifies this, store
      ensures local == old(local).(time := time)
      ensures r == Err(MissingMethod("updateReminderPreferences"))
      ensures store.defaults == old(store.defaults)
      ensures saveSucceeds ==> store.Current() == local
      ensures !saveSucceeds ==> store.storage == old(store.storage)
    {
      local := local.(time := time);
      r := Persist(store, saveSucceeds);
    }

    /**
     * A click on an activity card: ignored while reminders are off,
     * otherwise `handleActivityToggle(activity)`, which changes only the
     * activity list.
     */
    method ActivityClick(activity: string, store: ReminderStore, saveSucceeds: bool) returns (r: Option<Result<Settings>>)
      modifies this, store
      ensures !old(local).enabled ==>
                r == None && local == old(local)
                && store.defaults == old(store.defaults) && store.storage == old(store.storage)
      ensures old(local).enabled ==>
                local == old(local).(activities := ToggleActivity(old(local).activities, activity))
                && r == Some(Err(MissingMethod("updateReminderPreferences")))
                && store.defaults == old(store.defaults)
                && (saveSucceeds ==> store.Current() == local)
                && (!saveSucceeds ==> store.storage == old(store.storage))
    {
      if !local.enabled {
        return None;
      }
      local := local.(activities := ToggleActivity(local.activities, activity));
      var saved := Persist(store, saveSucceeds);
      r := Some(saved);
    }

    /** `handleWeekdaysToggle(!localSettings.weekdaysOnly)`; the switch is disabled while reminders are off. */
    method WeekdaysToggle(store: ReminderStore, saveSucceeds: bool) returns (r: Result<Settings>)
      requires local.enabled
      modifies this, store
      ensures local == old(local).(weekdaysOnly := !old(local).weekdaysOnly)
      ensures r == Err(MissingMethod("updateReminderPreferences"))
      ensures store.defaults == old(store.defaults)
      ensures saveSucceeds ==> store.Current() == local
      ensures !saveSucceeds ==> store.storage == old(store.storage)
    {
      local := local.(weekdaysOnly := !local.weekdaysOnly);
      r := Persist(store, saveSucceeds);
    }

    /**
     * `handleTestReminder()`, whose button is disabled while reminders are
     * off: unless the permission is already 'granted', it is requested
     * (`requested` is the answer) and nothing is sent unless it comes back
     * 'granted'. The store decides from its own settings whether to send.
     */
    function TestReminder(store: ReminderStore, permission: string, requested: string, env: Notify.Environment): (r: Option<TestResult>)
      reads this, store
      requires local.enabled
      ensures r == None <==> permission != "granted" && requested != "granted"
      ensures r.Some? ==> r.value == store.SendTestReminder(env)
    {
      if permission != "granted" && requested != "granted" then None
      else Some(store.SendTestReminder(env))
    }
  }
}
