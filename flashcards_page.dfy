/**
 * The flashcard review session: the card index, the session counters, the
 * completion screen and its accuracy and XP figures. Each rating is stored
 * through the card table and credited to the progress store.
 */
module FlashcardsPage {
  import opened Js
  import opened FlashcardService
  import Progress = UserProgressService

  /** The three rating buttons send 1 (hard), 3 (good) and 5 (easy). */
  predicate ValidRating(difficulty: int)
  {
    difficulty == 1 || difficulty == 3 || difficulty == 5
  }

  predicate CountsCorrect(difficulty: int)
  {
    difficulty >= 3
  }

  /** XP for one rating. */
  function XpForRating(difficulty: int): (xp: int)
    ensures CountsCorrect(difficulty) ==> xp == 5
    ensures !CountsCorrect(difficulty) ==> xp == 2
  {
    if difficulty >= 3 then 5 else 2
  }

  /** `sessionStats`. */
  datatype Stats = Stats(reviewed: nat, correct: nat, total: nat)

  /** The counters after one rating. */
  function AfterRating(s: Stats, difficulty: int): (r: Stats)
    ensures r.reviewed == s.reviewed + 1 && r.total == s.total
    ensures r.correct == s.correct + (if CountsCorrect(difficulty) then 1 else 0)
  {
    s.(reviewed := s.reviewed + 1, correct := if difficulty >= 3 then s.correct + 1 else s.correct)
  }

  /**
   * The accuracy the session reports: the rounded percentage of reviewed
   * cards rated correct, and 0 when nothing was reviewed.
   */
  function Accuracy(s: Stats): (r: int)
    ensures s.reviewed == 0 ==> r == 0
    ensures s.correct <= s.reviewed ==> 0 <= r <= 100
    ensures s.reviewed > 0 && s.correct == s.reviewed ==> r == 100
    ensures s.reviewed > 0 && s.correct == 0 ==> r == 0
  {
    if s.reviewed > 0 then
      RoundDivExact(100, s.reviewed);
      Percent(s.correct, s.reviewed)
    else 0
  }

  /**
   * The toast figure as `completeSession` computes it: from the counters
   * as they were before the last action, with one more correct review
   * added.
   */
  function ToastAccuracyAsWritten(before: Stats): int
  {
    if before.total > 0 then RoundDiv(100 * (before.correct + 1), before.reviewed + 1) else 0
  }

  /**
   * The completion screen's figure as written: guarded on `total`, so with
   * cards but no review it divides 0 by 0 (`None` stands for `NaN`).
   */
  function ScreenAccuracyAsWritten(s: Stats): Option<int>
  {
    if s.total == 0 then Some(0)
    else if s.reviewed == 0 then None
    else Some(Percent(s.correct, s.reviewed))
  }

  /** The as-written toast is right exactly when the last action was a correct rating. */
  lemma ToastAsWrittenAfterCorrectRating(before: Stats, difficulty: int)
    requires before.total > 0 && CountsCorrect(difficulty)
    ensures ToastAccuracyAsWritten(before) == Accuracy(AfterRating(before, difficulty))
  {
  }

  /**
   * The as-written toast can agree with the session's accuracy without a
   * correct last rating: two cards, the first rated correct and the second
   * skipped, give 100 either way.
   */
  lemma ToastAsWrittenCanMatchAfterSkip()
    ensures ToastAccuracyAsWritten(Stats(1, 1, 2)) == Accuracy(Stats(1, 1, 2)) == 100
  {
    RoundDivExact(100, 1);
    RoundDivExact(100, 2);
    assert 100 * 2 == 200;
  }

  /**
   * One card, skipped: the as-written toast claims 100% and the screen
   * shows `NaN`, while nothing was reviewed. One card rated hard: the
   * toast claims 100% while no answer was correct.
   */
  lemma AsWrittenAccuracyCounterexamples()
    ensures ToastAccuracyAsWritten(Stats(0, 0, 1)) == 100 && Accuracy(Stats(0, 0, 1)) == 0
    ensures ScreenAccuracyAsWritten(Stats(0, 0, 1)) == None
    ensures ToastAccuracyAsWritten(Stats(0, 0, 1)) == 100 && Accuracy(AfterRating(Stats(0, 0, 1), 1)) == 0
  {
    RoundDivExact(100, 1);
  }

  /** XP the ratings actually award. */
  function AwardedXp(s: Stats): int
    requires s.correct <= s.reviewed
  {
    5 * s.correct + 2 * (s.reviewed - s.correct)
  }

  /** The completion screen's "XP Earned", three per reviewed card. */
  function DisplayedXp(s: Stats): nat
  {
    s.reviewed * 3
  }

  /** The displayed XP equals what was awarded only when a third of the reviews were correct. */
  lemma DisplayedXpMatchesAwardedOnlyAtOneThird(s: Stats)
    requires s.correct <= s.reviewed
    ensures DisplayedXp(s) == AwardedXp(s) <==> s.reviewed == 3 * s.correct
    ensures s.reviewed > 0 && s.correct == s.reviewed ==> DisplayedXp(s) < AwardedXp(s)
  {
  }

  class ReviewSession {
    /** The course from the route. */
    const courseId: string
    /** The cards loaded for the course. */
    const cards: seq<Flashcard>
    var currentIndex: nat
    var stats: Stats
    var complete: bool
    /** The accuracy the completion toast announced. */
    var toastAccuracy: Option<int>
    /** The counters `completeSession` read: those before the action that completed the session. */
    ghost var lastBefore: Stats
    /** Cards passed over with Skip in this session. */
    ghost var skipped: nat
    /** XP credited to the progress store in this session. */
    ghost var xpAwarded: int

    /**
     * Every card up to the current one was rated or skipped exactly once,
     * the awarded XP matches the ratings, and the toast appears with
     * completion, showing the as-written figure for the counters
     * `completeSession` read.
     */
    ghost predicate Valid()
      reads this
    {
      |cards| > 0 && currentIndex < |cards| && stats.total == |cards|
      && stats.correct <= stats.reviewed
      && stats.reviewed + skipped == currentIndex + (if complete then 1 else 0)
      && xpAwarded == AwardedXp(stats)
      && (complete ==> currentIndex == |cards| - 1 && toastAccuracy == Some(ToastAccuracyAsWritten(lastBefore)))
      && (!complete ==> toastAccuracy == None)
    }

    /** The session right after the cards loaded. */
    constructor (courseId: string, cards: seq<Flashcard>)
      requires |cards| > 0
      ensures Valid() && this.courseId == courseId && this.cards == cards
      ensures currentIndex == 0 && stats == Stats(0, 0, |cards|) && !complete
    {
      this.courseId := courseId;
      this.cards := cards;
      currentIndex := 0;
      stats := Stats(0, 0, |cards|);
      complete := false;
      toastAccuracy := None;
      lastBefore := Stats(0, 0, |cards|);
      skipped := 0;
      xpAwarded := 0;
    }

    /** Cards after the current one. */
    function Remaining(): (r: int)
      reads this
      requires Valid()
      ensures r >= 0 && r == |cards[currentIndex + 1..]|
    {
      stats.total - currentIndex - 1
    }

    /**
     * The next card, or completion after the last one; `before` is the
     * `sessionStats` the calling handler's closure holds, which
     * `completeSession` reads for its toast.
     */
    method Advance(before: Stats)
      requires |cards| > 0 && currentIndex < |cards| && !complete
      modifies this
      ensures old(currentIndex) < |cards| - 1 ==> currentIndex == old(currentIndex) + 1 && !complete && toastAccuracy == None
      ensures old(currentIndex) == |cards| - 1 ==>
                currentIndex == old(currentIndex) && complete
                && toastAccuracy == Some(ToastAccuracyAsWritten(before)) && lastBefore == before
      ensures stats == old(stats) && skipped == old(skipped) && xpAwarded == old(xpAwarded)
    {
      if currentIndex < |cards| - 1 {
        currentIndex := currentIndex + 1;
        toastAccuracy := None;
      } else {
        complete := true;
        lastBefore := before;
        toastAccuracy := Some(ToastAccuracyAsWritten(before));
      }
    }

    /**
     * `handleRate(card.id, difficulty)`: stores the rating, counts it,
     * credits its XP to the course, and moves on; if the card cannot be
     * stored nothing else happens.
     */
    method Rate(table: FlashcardTable, store: Progress.ProgressStore, difficulty: int, reviewedAt: string)
      requires Valid() && !complete && ValidRating(difficulty)
      modifies this, table, store
      ensures Valid()
      ensures IdIndex(old(table.cards), cards[old(currentIndex)].id) < 0 ==>
                stats == old(stats) && currentIndex == old(currentIndex) && !complete
                && store.Get() == old(store.Get())
      ensures IdIndex(old(table.cards), cards[old(currentIndex)].id) >= 0 ==>
                stats == AfterRating(old(stats), difficulty)
                && store.Get() == Progress.AddXPTo(old(store.Get()), XpForRating(difficulty), courseId)
                && (old(currentIndex) < |cards| - 1 ==> currentIndex == old(currentIndex) + 1 && !complete)
                && (old(currentIndex) == |cards| - 1 ==>
                      complete && toastAccuracy == Some(ToastAccuracyAsWritten(old(stats)))
                      && (CountsCorrect(difficulty) ==> toastAccuracy == Some(Accuracy(stats))))
      ensures var i := IdIndex(old(table.cards), cards[old(currentIndex)].id);
              if i < 0 then table.cards == old(table.cards)
              else table.cards == old(table.cards)[i := old(table.cards)[i].(difficulty := difficulty, lastReviewed := Some(reviewedAt))]
    {
      var before := stats;
      var r := table.UpdateDifficulty(cards[currentIndex].id, difficulty, reviewedAt);
      if r.Err? {
        return;
      }
      stats := AfterRating(stats, difficulty);
      var _ := store.AddXP(XpForRating(difficulty), courseId);
      xpAwarded := xpAwarded + XpForRating(difficulty);
      if CountsCorrect(difficulty) {
        ToastAsWrittenAfterCorrectRating(before, difficulty);
      }
      Advance(before);
    }

    /** `handleSkip()`: moves on without touching the counters. */
    method Skip()
      requires Valid() && !complete
      modifies this
      ensures Valid()
      ensures stats == old(stats)
      ensures old(currentIndex) < |cards| - 1 ==> currentIndex == old(currentIndex) + 1 && !complete
      ensures old(currentIndex) == |cards| - 1 ==> complete && toastAccuracy == Some(ToastAccuracyAsWritten(stats))
    {
      skipped := skipped + 1;
      Advance(stats);
    }

    /** `handleRestart()`: a fresh session over the same cards. */
    method Restart()
      requires Valid()
      modifies this
      ensures Valid()
      ensures currentIndex == 0 && stats == Stats(0, 0, |cards|) && !complete
    {
      currentIndex := 0;
      complete := false;
      stats := Stats(0, 0, |cards|);
      toastAccuracy := None;
      skipped := 0;
      xpAwarded := 0;
    }
  }
}
