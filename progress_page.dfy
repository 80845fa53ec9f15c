/**
 * The progress screen's figures: lessons summed over the courses, the
 * overall completion percentage, and the number of unlocked achievements.
 */
module ProgressPage {
  import opened Js
  import opened CourseService
  import Progress = UserProgressService

  /** `courses.reduce((sum, course) => sum + course.totalLessons, 0)`. */
  function TotalLessons(courses: seq<Course>): int
  {
    if |courses| == 0 then 0
    else TotalLessons(courses[..|courses| - 1]) + courses[|courses| - 1].totalLessons
  }

  /** `courses.reduce((sum, course) => sum + course.completedLessons, 0)`. */
  function CompletedLessons(courses: seq<Course>): int
  {
    if |courses| == 0 then 0
    else CompletedLessons(courses[..|courses| - 1]) + courses[|courses| - 1].completedLessons
  }

  /** Both sums split over a concatenation of course lists. */
  lemma {:induction false} SumsAppend(a: seq<Course>, b: seq<Course>)
    ensures TotalLessons(a + b) == TotalLessons(a) + TotalLessons(b)
    ensures CompletedLessons(a + b) == CompletedLessons(a) + CompletedLessons(b)
  {
    if |b| > 0 {
      assert (a + b)[..|a + b| - 1] == a + b[..|b| - 1];
      SumsAppend(a, b[..|b| - 1]);
    } else {
      assert a + b == a;
    }
  }

  /** A course record whose completed count lies within its lesson count. */
  predicate Consistent(c: Course)
  {
    0 <= c.completedLessons <= c.totalLessons
  }

  /** When every course is consistent, so are the sums. */
  lemma {:induction false} CompletedWithinTotal(courses: seq<Course>)
    requires forall i :: 0 <= i < |courses| ==> Consistent(courses[i])
    ensures 0 <= CompletedLessons(courses) <= TotalLessons(courses)
  {
    if |courses| > 0 {
      CompletedWithinTotal(courses[..|courses| - 1]);
      assert Consistent(courses[|courses| - 1]);
    }
  }

  /** When every course is finished, so is the sum. */
  lemma {:induction false} AllFinishedSums(courses: seq<Course>)
    requires forall i :: 0 <= i < |courses| ==> courses[i].completedLessons == courses[i].totalLessons
    ensures CompletedLessons(courses) == TotalLessons(courses)
  {
    if |courses| > 0 {
      AllFinishedSums(courses[..|courses| - 1]);
    }
  }

  /**
   * `overallProgress`: the rounded percentage of lessons completed, 0 when
   * there are no lessons.
   */
  function OverallProgress(courses: seq<Course>): (r: int)
    ensures TotalLessons(courses) <= 0 ==> r == 0
    ensures TotalLessons(courses) > 0 ==> r == Percent(CompletedLessons(courses), TotalLessons(courses))
  {
    var total := TotalLessons(courses);
    if total > 0 then Percent(CompletedLessons(courses), total) else 0
  }

  /** With consistent courses the overall progress is a percentage. */
  lemma OverallProgressBounds(courses: seq<Course>)
    requires forall i :: 0 <= i < |courses| ==> Consistent(courses[i])
    ensures 0 <= OverallProgress(courses) <= 100
  {
    CompletedWithinTotal(courses);
  }

  /** When every course with lessons is finished the overall progress is 100. */
  lemma OverallProgressFull(courses: seq<Course>)
    requires forall i :: 0 <= i < |courses| ==> courses[i].completedLessons == courses[i].totalLessons
    requires TotalLessons(courses) > 0
    ensures OverallProgress(courses) == 100
  {
    AllFinishedSums(courses);
    RoundDivExact(100, TotalLessons(courses));
  }

  /**
   * The achievements card: how many achievements are unlocked, and 0 when
   * the progress record has not loaded.
   */
  function UnlockedCount(p: Option<Progress.UserProgress>): (n: nat)
    ensures p.None? ==> n == 0
    ensures p.Some? ==> n == Count(p.value.achievements, Progress.IsUnlocked) && n <= |p.value.achievements|
  {
    if p.Some? then Count(p.value.achievements, Progress.IsUnlocked) else 0
  }

  /** Unlocking raises the figure by one exactly when the achievement was locked. */
  lemma UnlockedCountAfterUnlock(p: Progress.UserProgress, id: string)
    ensures UnlockedCount(Some(p.(achievements := Progress.Unlock(p.achievements, id))))
            == UnlockedCount(Some(p)) + (if Progress.UnlockTransition(p.achievements, id) then 1 else 0)
  {
    Progress.UnlockCount(p.achievements, id);
  }

  /** With the store's initial record every achievement counts: the card shows 3. */
  lemma InitialUnlockedCount()
    ensures UnlockedCount(Some(Progress.InitialProgress())) == 3
  {
    var achievements := Progress.InitialProgress().achievements;
    FilterAll(achievements, Progress.IsUnlocked);
  }
}
