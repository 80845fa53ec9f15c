/**
 * The user progress store: the one mutable progress aggregate of the
 * session (total XP, streak, per-course progress, achievements) and the
 * service operations that change it in place.
 */
module UserProgressService {
  import opened Js

  datatype CourseProgress = CourseProgress(completedLessons: int, totalLessons: int, xp: int)

  datatype Achievement = Achievement(id: string, name: string, description: string, unlocked: bool)

  /**
   * A snapshot of the aggregate, as `get()` returns it. There is no
   * `dailyPractice` field: readers of `dailyPractice?.…` see `undefined`.
   */
  datatype UserProgress = UserProgress(
    totalXP: int,
    currentStreak: int,
    coursesProgress: map<string, CourseProgress>,
    achievements: seq<Achievement>)

  /** The source name `addXP` uses when the caller names none. */
  const GeneralSource := "general"

  /** The state the store starts in: three courses, and three achievements already unlocked. */
  function InitialProgress(): (r: UserProgress)
    ensures r.totalXP == 1250 && r.currentStreak == 7
    ensures |r.coursesProgress| == 3 && |r.achievements| == 3
    ensures forall i :: 0 <= i < |r.achievements| ==> r.achievements[i].unlocked
  {
    UserProgress(
      1250,
      7,
      map["spanish-basics" := CourseProgress(5, 12, 450),
          "french-intermediate" := CourseProgress(3, 10, 300),
          "german-beginner" := CourseProgress(8, 15, 500)],
      [Achievement("first-lesson", "First Steps", "Complete your first lesson", true),
       Achievement("streak-7", "Week Warrior", "7-day learning streak", true),
       Achievement("xp-1000", "XP Master", "Earn 1000 XP", true)])
  }

  // ---------------------------------------------------------------------
  // XP

  /** Whether `addXP(_, source)` also credits a course. */
  predicate CreditsCourse(p: UserProgress, source: string)
  {
    source != GeneralSource && source in p.coursesProgress
  }

  /** The state after `addXP(amount, source)`. */
  function AddXPTo(p: UserProgress, amount: int, source: string): (r: UserProgress)
    ensures r.totalXP == p.totalXP + amount
    ensures r.currentStreak == p.currentStreak && r.achievements == p.achievements
    ensures r.coursesProgress.Keys == p.coursesProgress.Keys
    ensures forall c :: c in p.coursesProgress && (c != source || !CreditsCourse(p, source))
              ==> r.coursesProgress[c] == p.coursesProgress[c]
    ensures CreditsCourse(p, source) ==>
              r.coursesProgress[source] == p.coursesProgress[source].(xp := p.coursesProgress[source].xp + amount)
  {
    var courses := p.coursesProgress;
    p.(totalXP := p.totalXP + amount,
       coursesProgress := if CreditsCourse(p, source)
                          then courses[source := courses[source].(xp := courses[source].xp + amount)]
                          else courses)
  }

  /** XP awards commute: the order of two `addXP` calls does not matter. */
  lemma AddXPCommutes(p: UserProgress, a1: int, s1: string, a2: int, s2: string)
    ensures AddXPTo(AddXPTo(p, a1, s1), a2, s2) == AddXPTo(AddXPTo(p, a2, s2), a1, s1)
  {
    var l := AddXPTo(AddXPTo(p, a1, s1), a2, s2);
    var r := AddXPTo(AddXPTo(p, a2, s2), a1, s1);
    assert l.coursesProgress == r.coursesProgress by {
      forall c | c in l.coursesProgress
        ensures l.coursesProgress[c] == r.coursesProgress[c]
      {
      }
    }
  }

  /** Two awards to the same place add up to one award of the sum. */
  lemma AddXPAccumulates(p: UserProgress, a1: int, a2: int, source: string)
    ensures AddXPTo(AddXPTo(p, a1, source), a2, source) == AddXPTo(p, a1 + a2, source)
  {
    var l := AddXPTo(AddXPTo(p, a1, source), a2, source);
    var r := AddXPTo(p, a1 + a2, source);
    assert l.coursesProgress == r.coursesProgress by {
      forall c | c in l.coursesProgress
        ensures l.coursesProgress[c] == r.coursesProgress[c]
      {
      }
    }
  }

  // ---------------------------------------------------------------------
  // Streak

  /** `currentStreak > 0 && currentStreak % 7 === 0`: when the streak toast shows. */
  predicate IsStreakMilestone(streak: int)
  {
    streak > 0 && streak % 7 == 0
  }

  // ---------------------------------------------------------------------
  // Achievements

  function IdIndex(achievements: seq<Achievement>, id: string): int
  {
    FindIndex(achievements, (a: Achievement) => a.id == id)
  }

  /** Whether `unlockAchievement(id)` flips a flag: the first match exists and is still locked. */
  predicate UnlockTransition(achievements: seq<Achievement>, id: string)
  {
    var i := IdIndex(achievements, id);
    i >= 0 && !achievements[i].unlocked
  }

  /** The achievement list after `unlockAchievement(id)`. */
  function Unlock(achievements: seq<Achievement>, id: string): (r: seq<Achievement>)
    ensures |r| == |achievements|
    ensures forall j :: 0 <= j < |r| ==>
              r[j].id == achievements[j].id && r[j].name == achievements[j].name
              && r[j].description == achievements[j].description
    ensures forall j :: 0 <= j < |r| && achievements[j].unlocked ==> r[j].unlocked
    ensures forall j :: 0 <= j < |r| && j != IdIndex(achievements, id) ==> r[j] == achievements[j]
    ensures var i := IdIndex(achievements, id); i >= 0 ==> r[i].unlocked
  {
    var i := IdIndex(achievements, id);
    if i >= 0 && !achievements[i].unlocked then achievements[i := achievements[i].(unlocked := true)]
    else achievements
  }

  /** Unlocking is idempotent: a second call changes nothing. */
  lemma UnlockIdempotent(achievements: seq<Achievement>, id: string)
    ensures Unlock(Unlock(achievements, id), id) == Unlock(achievements, id)
    ensures !UnlockTransition(Unlock(achievements, id), id)
  {
    var once := Unlock(achievements, id);
    FindIndexAgree(once, (a: Achievement) => a.id == id, achievements, (a: Achievement) => a.id == id);
  }

  predicate IsUnlocked(a: Achievement)
  {
    a.unlocked
  }

  /** The number of unlocked achievements grows by one exactly on a transition. */
  lemma UnlockCount(achievements: seq<Achievement>, id: string)
    ensures Count(Unlock(achievements, id), IsUnlocked)
            == Count(achievements, IsUnlocked) + (if UnlockTransition(achievements, id) then 1 else 0)
  {
    var i := IdIndex(achievements, id);
    if UnlockTransition(achievements, id) {
      CountUpdate(achievements, i, achievements[i].(unlocked := true), IsUnlocked);
    }
  }

  /** In the initial state every achievement is unlocked, so no unlock call changes anything. */
  lemma InitialUnlockIsNoOp(id: string)
    ensures !UnlockTransition(InitialProgress().achievements, id)
    ensures Unlock(InitialProgress().achievements, id) == InitialProgress().achievements
  {
  }

  class ProgressStore {
    /** The fields of `userProgressData`. */
    var totalXP: int
    var currentStreak: int
    var coursesProgress: map<string, CourseProgress>
    var achievements: seq<Achievement>

    /** `get()`: a copy of the aggregate. */
    function Get(): UserProgress
      reads this
    {
      UserProgress(totalXP, currentStreak, coursesProgress, achievements)
    }

    /** The store as the module initialises it. */
    constructor ()
      ensures Get() == InitialProgress()
    {
      totalXP := 1250;
      currentStreak := 7;
      coursesProgress := InitialProgress().coursesProgress;
      achievements := InitialProgress().achievements;
    }

    /**
     * `addXP(amount, source)`: the total grows by exactly `amount` (its sign
     * is not checked); a known course other than 'general' is credited too.
     */
    method AddXP(amount: int, source: string) returns (snapshot: UserProgress)
      modifies this
      ensures Get() == AddXPTo(old(Get()), amount, source)
      ensures snapshot == Get()
    {
      totalXP := totalXP + amount;
      if source != GeneralSource && source in coursesProgress {
        coursesProgress := coursesProgress[source := coursesProgress[source].(xp := coursesProgress[source].xp + amount)];
      }
      snapshot := Get();
    }

    /** `updateStreak()`: one more day; `milestone` is whether the streak toast shows. */
    method UpdateStreak() returns (snapshot: UserProgress, milestone: bool)
      modifies this
      ensures Get() == old(Get()).(currentStreak := old(currentStreak) + 1)
      ensures milestone <==> IsStreakMilestone(currentStreak)
      ensures snapshot == Get()
    {
      currentStreak := currentStreak + 1;
      milestone := currentStreak > 0 && currentStreak % 7 == 0;
      snapshot := Get();
    }

    /**
     * `updateCourseProgress(courseId, completedLessons)`: overwrites the count
     * of a known course, with no clamp to `totalLessons`; an unknown course
     * changes nothing.
     */
    method UpdateCourseProgress(courseId: string, completedLessons: int) returns (snapshot: UserProgress)
      modifies this
      ensures courseId in old(coursesProgress) ==>
                Get() == old(Get()).(coursesProgress := old(coursesProgress)[courseId :=
                                       old(coursesProgress)[courseId].(completedLessons := completedLessons)])
      ensures courseId !in old(coursesProgress) ==> Get() == old(Get())
      ensures snapshot == Get()
    {
      if courseId in coursesProgress {
        coursesProgress := coursesProgress[courseId := coursesProgress[courseId].(completedLessons := completedLessons)];
      }
      snapshot := Get();
    }

    /** `unlockAchievement(id)`: `announced` is whether the unlock toast shows. */
    method UnlockAchievement(id: string) returns (snapshot: UserProgress, announced: bool)
      modifies this
      ensures Get() == old(Get()).(achievements := Unlock(old(achievements), id))
      ensures announced <==> UnlockTransition(old(achievements), id)
      ensures snapshot == Get()
    {
      var i := FindIndex(achievements, (a: Achievement) => a.id == id);
      announced := i >= 0 && !achievements[i].unlocked;
      if announced {
        achievements := achievements[i := achievements[i].(unlocked := true)];
      }
      snapshot := Get();
    }
  }
}
