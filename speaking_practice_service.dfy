/**
 * The speaking-practice service: the exercise catalogue, the simulated
 * pronunciation analysis with its progress bookkeeping (attempt counter,
 * rounded running mean, best score per exercise, completed list), the
 * feedback and recommendation bands, and the leaderboard.
 */
module SpeakingPracticeService {
  import opened Js

  datatype Exercise = Exercise(id: string, title: string, difficulty: string, kind: string, language: string)

  /** The catalogue `mockExercises`. */
  function MockExercises(): (r: seq<Exercise>)
    ensures |r| == 6
  {
    [Exercise("sp-001", "Basic Greetings", "beginner", "greeting", "english"),
     Exercise("sp-002", "Restaurant Orders", "intermediate", "conversation", "english"),
     Exercise("sp-003", "Directions", "intermediate", "conversation", "english"),
     Exercise("sp-004", "Business Introduction", "advanced", "professional", "english"),
     Exercise("sp-005", "Weather Conversation", "beginner", "conversation", "english"),
     Exercise("sp-006", "Shopping Experience", "intermediate", "conversation", "english")]
  }

  /** The language `getExercises` filters on when the caller passes none. */
  const DefaultLanguage := "english"

  /** JavaScript truthiness of an optional string: present and non-empty. */
  predicate Truthy(s: Option<string>)
  {
    s.Some? && s.value != ""
  }

  /** Whether an exercise passes both filters of `getExercises`. */
  predicate Selected(e: Exercise, difficulty: Option<string>, language: Option<string>)
  {
    (Truthy(difficulty) ==> e.difficulty == difficulty.value)
    && (Truthy(language) ==> e.language == language.value)
  }

  /** The filter test `ex => ex.difficulty === difficulty`. */
  function HasDifficulty(difficulty: string): Exercise -> bool
  {
    (e: Exercise) => e.difficulty == difficulty
  }

  /** The filter test `ex => ex.language === language`. */
  function InLanguage(language: string): Exercise -> bool
  {
    (e: Exercise) => e.language == language
  }

  /** The two filters of `getExercises` applied to a catalogue, difficulty first. */
  function SelectFrom(catalogue: seq<Exercise>, difficulty: Option<string>, language: Option<string>): (r: seq<Exercise>)
    ensures forall i :: 0 <= i < |r| ==> r[i] in catalogue && Selected(r[i], difficulty, language)
    ensures forall i :: 0 <= i < |catalogue| && Selected(catalogue[i], difficulty, language) ==> catalogue[i] in r
    ensures forall x :: multiset(r)[x] == if Selected(x, difficulty, language) then multiset(catalogue)[x] else 0
  {
    var byDifficulty := if Truthy(difficulty) then Filter(catalogue, HasDifficulty(difficulty.value)) else catalogue;
    var r := if Truthy(language) then Filter(byDifficulty, InLanguage(language.value)) else byDifficulty;
    assert forall x :: multiset(r)[x] == if Selected(x, difficulty, language) then multiset(catalogue)[x] else 0 by {
      if Truthy(difficulty) {
        FilterCounts(catalogue, HasDifficulty(difficulty.value));
      }
      if Truthy(language) {
        FilterCounts(byDifficulty, InLanguage(language.value));
      }
    }
    r
  }

  /**
   * The selection keeps catalogue order: selecting from an empty catalogue
   * gives nothing, and one more exercise at the end of the catalogue is one
   * more at the end of the selection exactly when it is selected.
   */
  lemma SelectFromSnoc(catalogue: seq<Exercise>, e: Exercise, difficulty: Option<string>, language: Option<string>)
    ensures SelectFrom([], difficulty, language) == []
    ensures SelectFrom(catalogue + [e], difficulty, language)
            == SelectFrom(catalogue, difficulty, language) + if Selected(e, difficulty, language) then [e] else []
  {
    var byDifficulty := if Truthy(difficulty) then Filter(catalogue, HasDifficulty(difficulty.value)) else catalogue;
    if Truthy(difficulty) {
      FilterSnoc(catalogue, e, HasDifficulty(difficulty.value));
    }
    if Truthy(language) {
      if Truthy(difficulty) && !HasDifficulty(difficulty.value)(e) {
        assert Filter(catalogue + [e], HasDifficulty(difficulty.value)) == byDifficulty;
      } else {
        FilterSnoc(byDifficulty, e, InLanguage(language.value));
      }
    }
  }

  /**
   * `getExercises(difficulty, language)`: the catalogue entries matching the
   * difficulty (when one is given) and the language (when one is given), in
   * catalogue order. An omitted language arrives here as `Some(DefaultLanguage)`.
   */
  function GetExercises(difficulty: Option<string>, language: Option<string>): (r: seq<Exercise>)
    ensures forall i :: 0 <= i < |r| ==> r[i] in MockExercises() && Selected(r[i], difficulty, language)
    ensures forall i :: 0 <= i < |MockExercises()| && Selected(MockExercises()[i], difficulty, language)
              ==> MockExercises()[i] in r
    ensures forall x :: multiset(r)[x] == if Selected(x, difficulty, language) then multiset(MockExercises())[x] else 0
  {
    SelectFrom(MockExercises(), difficulty, language)
  }

  /** With the default arguments the whole catalogue comes back, in order. */
  lemma DefaultExercisesAreAll()
    ensures GetExercises(None, Some(DefaultLanguage)) == MockExercises()
  {
    var catalogue := MockExercises();
    assert forall i :: 0 <= i < |catalogue| ==> catalogue[i].language == DefaultLanguage;
    assert Truthy(Some(DefaultLanguage));
    FilterAll(catalogue, InLanguage(DefaultLanguage));
    assert SelectFrom(catalogue, None, Some(DefaultLanguage)) == Filter(catalogue, InLanguage(DefaultLanguage));
  }

  /** `catalogue.find(ex => ex.id === id)`, failing with 'Exercise not found'. */
  function ExerciseIn(catalogue: seq<Exercise>, id: string): (r: Result<Exercise>)
    ensures r.Ok? <==> exists i :: 0 <= i < |catalogue| && catalogue[i].id == id
    ensures r.Ok? ==> r.value in catalogue && r.value.id == id
    ensures r.Err? ==> r.error == NotFound("Exercise", id)
  {
    var e := Find(catalogue, (e: Exercise) => e.id == id);
    if e.None? then Err(NotFound("Exercise", id)) else Ok(e.value)
  }

  /** `getExerciseById(id)`: the catalogue entry with that id. */
  function ExerciseById(id: string): (r: Result<Exercise>)
    ensures r.Ok? <==> exists i :: 0 <= i < |MockExercises()| && MockExercises()[i].id == id
    ensures r.Ok? ==> r.value in MockExercises() && r.value.id == id
    ensures r.Err? ==> r.error == NotFound("Exercise", id)
  {
    ExerciseIn(MockExercises(), id)
  }

  // ---------------------------------------------------------------------
  // Analysis

  /**
   * The three rounded random scores one analysis draws
   * (`Math.round(baseScore + noise)` for each category).
   */
  datatype Draw = Draw(pronunciation: int, fluency: int, clarity: int)

  /**
   * The ranges the random generator can produce: `baseScore` lies in
   * [70, 95) and the noise is below ±5, ±4 and ±6 respectively.
   */
  predicate FromGenerator(d: Draw)
  {
    65 <= d.pronunciation <= 100 && 66 <= d.fluency <= 99 && 64 <= d.clarity <= 101
  }

  /** `overallScore` before clamping: the rounded mean of the three scores. */
  function Overall(d: Draw): int
  {
    RoundDiv(d.pronunciation + d.fluency + d.clarity, 3)
  }

  /** Generated draws give an unclamped overall score in [65, 100], yet clarity can reach 101. */
  lemma GeneratorRanges(d: Draw)
    requires FromGenerator(d)
    ensures 65 <= Overall(d) <= 100
    ensures d.clarity == 101 ==> Clamp(d.clarity, 0, 100) == 100
  {
    RoundDivBounds(d.pronunciation + d.fluency + d.clarity, 3, 65, 100);
  }

  datatype DetailedScore = DetailedScore(category: string, value: int)

  datatype Analysis = Analysis(
    exerciseId: string,
    overallScore: int,
    detailedScores: seq<DetailedScore>,
    feedback: Feedback,
    recommendations: Recommendations,
    comparedToNative: int,
    recordingDuration: int,
    timestamp: string)

  /**
   * The report `analyzeAudio` returns: scores clamped into [0, 100]; the
   * feedback, recommendations and native comparison use the unclamped
   * overall score.
   */
  function Analyze(exerciseId: string, blobSize: nat, d: Draw, timestamp: string): (a: Analysis)
    ensures a.exerciseId == exerciseId && a.timestamp == timestamp
    ensures 0 <= a.overallScore <= 100 && a.overallScore == Clamp(Overall(d), 0, 100)
    ensures 0 <= Overall(d) <= 100 ==> a.overallScore == Overall(d)
    ensures |a.detailedScores| == 3
    ensures forall i :: 0 <= i < 3 ==> 0 <= a.detailedScores[i].value <= 100
    ensures a.detailedScores[0].category == "Pronunciation" && a.detailedScores[0].value == Clamp(d.pronunciation, 0, 100)
    ensures a.detailedScores[1].category == "Fluency" && a.detailedScores[1].value == Clamp(d.fluency, 0, 100)
    ensures a.detailedScores[2].category == "Clarity" && a.detailedScores[2].value == Clamp(d.clarity, 0, 100)
    ensures a.feedback == FeedbackFor(Overall(d)) && a.recommendations == RecommendationsFor(Overall(d))
    ensures a.comparedToNative == RoundDiv(9 * Overall(d), 10) && a.recordingDuration == RoundDiv(blobSize, 16000)
  {
    var overall := Overall(d);
    Analysis(
      exerciseId,
      Clamp(overall, 0, 100),
      [DetailedScore("Pronunciation", Clamp(d.pronunciation, 0, 100)),
       DetailedScore("Fluency", Clamp(d.fluency, 0, 100)),
       DetailedScore("Clarity", Clamp(d.clarity, 0, 100))],
      FeedbackFor(overall),
      RecommendationsFor(overall),
      RoundDiv(9 * overall, 10),
      RoundDiv(blobSize, 16000),
      timestamp)
  }

  // ---------------------------------------------------------------------
  // Feedback and recommendations

  datatype Feedback = Excellent | Great | GoodEffort | MakingProgress | KeepPracticing

  /** The band of `generateFeedback`: thresholds 90, 80, 70 and 60 on the overall score. */
  function FeedbackFor(overall: int): (f: Feedback)
    ensures f == Excellent <==> overall >= 90
    ensures f == Great <==> 80 <= overall < 90
    ensures f == GoodEffort <==> 70 <= overall < 80
    ensures f == MakingProgress <==> 60 <= overall < 70
    ensures f == KeepPracticing <==> overall < 60
  {
    if overall >= 90 then Excellent
    else if overall >= 80 then Great
    else if overall >= 70 then GoodEffort
    else if overall >= 60 then MakingProgress
    else KeepPracticing
  }

  function FeedbackRank(f: Feedback): nat
  {
    match f
    case KeepPracticing => 0
    case MakingProgress => 1
    case GoodEffort => 2
    case Great => 3
    case Excellent => 4
  }

  /** A higher score never gets a lower feedback band. */
  lemma FeedbackMonotone(s: int, t: int)
    requires s <= t
    ensures FeedbackRank(FeedbackFor(s)) <= FeedbackRank(FeedbackFor(t))
  {
  }

  function FeedbackMessage(f: Feedback): string
  {
    match f
    case Excellent => "Excellent pronunciation! Your speech is very clear and natural. You sound almost native-like. Keep up the great work!"
    case Great => "Great job! Your pronunciation is quite good. Focus on maintaining consistency across all sounds and continue practicing for even better results."
    case GoodEffort => "Good effort! Your pronunciation is understandable with some areas for improvement. Practice specific sounds that need work and focus on rhythm and intonation."
    case MakingProgress => "You're making progress! Work on clearer articulation and slower speech initially. Regular practice will help improve your pronunciation significantly."
    case KeepPracticing => "Keep practicing! Focus on individual sounds first, then work on connecting them smoothly. Consider listening to native speakers more and mimicking their pronunciation."
  }

  datatype Recommendations = Fundamentals | Intonation | Advanced

  /** The band `generateRecommendations` picks: below 70, below 85, and the rest. */
  function RecommendationsFor(score: int): (r: Recommendations)
    ensures r == Fundamentals <==> score < 70
    ensures r == Advanced <==> score >= 85
  {
    if score < 70 then Fundamentals else if score < 85 then Intonation else Advanced
  }

  function RecommendationRank(r: Recommendations): nat
  {
    match r
    case Fundamentals => 0
    case Intonation => 1
    case Advanced => 2
  }

  /** A higher score never gets more basic recommendations. */
  lemma RecommendationsMonotone(s: int, t: int)
    requires s <= t
    ensures RecommendationRank(RecommendationsFor(s)) <= RecommendationRank(RecommendationsFor(t))
  {
  }

  /** The three tips of each band. */
  function RecommendationTexts(r: Recommendations): (texts: seq<string>)
    ensures |texts| == 3
  {
    match r
    case Fundamentals =>
      ["Practice individual sounds using phonetic exercises",
       "Listen to native speakers and try to mimic their pronunciation",
       "Record yourself regularly to track improvement"]
    case Intonation =>
      ["Focus on intonation and stress patterns",
       "Practice connected speech and linking words",
       "Work on rhythm and natural flow"]
    case Advanced =>
      ["Maintain your excellent pronunciation",
       "Challenge yourself with more complex texts",
       "Help others improve their pronunciation"]
  }

  // ---------------------------------------------------------------------
  // Progress bookkeeping

  /** `Math.round((average * (n - 1) + score) / n)` for the new attempt count `n`. */
  function RunningMean(average: int, n: int, score: int): int
    requires n >= 1
  {
    RoundDiv(average * (n - 1) + score, n)
  }

  /**
   * The rounded running mean stays within any range that holds the old
   * mean and the new score.
   */
  lemma RunningMeanBounds(average: int, n: int, score: int, lo: int, hi: int)
    requires n >= 1
    requires lo <= average <= hi && lo <= score <= hi
    ensures lo <= RunningMean(average, n, score) <= hi
  {
    if n > 1 {
      MulMonotone(n - 1, lo, average);
      MulMonotone(n - 1, average, hi);
    }
    assert lo * n == lo * (n - 1) + lo;
    assert hi * n == hi * (n - 1) + hi;
    RoundDivBounds(average * (n - 1) + score, n, lo, hi);
  }

  /** The first attempt's mean is its own score. */
  lemma RunningMeanFirst(average: int, score: int)
    ensures RunningMean(average, 1, score) == score
  {
    RoundDivExact(score, 1);
  }

  /**
   * The stored mean is 0 before any attempt and, with generated draws,
   * within [65, 100] after any number of attempts.
   */
  predicate AverageInRange(average: int, attempts: int)
  {
    attempts >= 0 && (attempts == 0 ==> average == 0) && (attempts > 0 ==> 65 <= average <= 100)
  }

  lemma AttemptKeepsAverageInRange(average: int, attempts: int, d: Draw)
    requires AverageInRange(average, attempts) && FromGenerator(d)
    ensures AverageInRange(RunningMean(average, attempts + 1, Overall(d)), attempts + 1)
  {
    GeneratorRanges(d);
    if attempts == 0 {
      RunningMeanFirst(average, Overall(d));
    } else {
      RunningMeanBounds(average, attempts + 1, Overall(d), 65, 100);
    }
  }

  /**
   * `bestScores[id]` after an attempt: replaced when there is no truthy
   * previous best (absent or 0) or the previous best is smaller.
   */
  function RecordBest(best: map<string, int>, id: string, score: int): (r: map<string, int>)
    ensures r.Keys == best.Keys + {id}
    ensures forall k :: k in best && k != id ==> r[k] == best[k]
    ensures r[id] >= score
    ensures id in best && best[id] != 0 ==> r[id] >= best[id]
    ensures r[id] == score || (id in best && best[id] != 0 && r[id] == best[id])
  {
    if id !in best || best[id] == 0 || best[id] < score then best[id := score] else best
  }

  function Max(s: seq<int>): (m: int)
    requires |s| > 0
    ensures forall i :: 0 <= i < |s| ==> s[i] <= m
    ensures exists i :: 0 <= i < |s| && s[i] == m
  {
    if |s| == 1 then s[0]
    else
      var m := Max(s[..|s| - 1]);
      assert forall i :: 0 <= i < |s| - 1 ==> s[..|s| - 1][i] == s[i];
      if s[|s| - 1] > m then s[|s| - 1] else m
  }

  /** The best scores after a run of attempts on one exercise, in order. */
  function RecordAll(best: map<string, int>, id: string, scores: seq<int>): map<string, int>
  {
    if |scores| == 0 then best
    else RecordBest(RecordAll(best, id, scores[..|scores| - 1]), id, scores[|scores| - 1])
  }

  /**
   * From no record, a run of positive scores leaves the largest of them as
   * the best score.
   */
  lemma {:induction false} BestIsMaximum(best: map<string, int>, id: string, scores: seq<int>)
    requires id !in best && |scores| > 0
    requires forall i :: 0 <= i < |scores| ==> scores[i] > 0
    ensures id in RecordAll(best, id, scores) && RecordAll(best, id, scores)[id] == Max(scores)
  {
    if |scores| > 1 {
      var prefix := scores[..|scores| - 1];
      assert forall i :: 0 <= i < |prefix| ==> prefix[i] == scores[i];
      BestIsMaximum(best, id, prefix);
    }
  }

  /** `completedExercises` after an attempt: the id is pushed only if absent. */
  function AddOnce(completed: seq<string>, id: string): (r: seq<string>)
    ensures id in r
    ensures forall x :: x in completed ==> x in r
    ensures forall i :: 0 <= i < |r| ==> r[i] in completed || r[i] == id
    ensures |completed| <= |r| <= |completed| + 1
  {
    if id in completed then completed else completed + [id]
  }

  /** The completed list never gains a duplicate. */
  lemma AddOnceNoDuplicates(completed: seq<string>, id: string)
    requires NoDuplicates(completed)
    ensures NoDuplicates(AddOnce(completed, id))
  {
  }

  // ---------------------------------------------------------------------
  // Leaderboard

  datatype Entry = Entry(id: int, name: string, score: int, exercises: int, isCurrentUser: bool)

  /** The board before sorting: four fixed learners and the current user. */
  function Board(averageScore: int, totalAttempts: int): seq<Entry>
  {
    [Entry(1, "Emma Rodriguez", 92, 48, false),
     Entry(2, "Chen Wei", 88, 52, false),
     Entry(3, "Aisha Patel", 90, 45, false),
     Entry(4, "You", averageScore, totalAttempts, true),
     Entry(5, "Sofia Rossi", 89, 41, false)]
  }

  predicate SortedDesc(s: seq<Entry>)
  {
    forall i, j :: 0 <= i < j < |s| ==> s[i].score >= s[j].score
  }

  /** Places `e` after every entry scoring at least as much (ties keep arrival order). */
  function InsertDesc(sorted: seq<Entry>, e: Entry): (r: seq<Entry>)
    ensures |r| == |sorted| + 1
  {
    if |sorted| == 0 then [e]
    else if sorted[|sorted| - 1].score >= e.score then sorted + [e]
    else InsertDesc(sorted[..|sorted| - 1], e) + [sorted[|sorted| - 1]]
  }

  /** Inserting adds exactly the one entry. */
  lemma {:induction false} InsertDescPermutes(sorted: seq<Entry>, e: Entry)
    ensures multiset(InsertDesc(sorted, e)) == multiset(sorted) + multiset{e}
  {
    if |sorted| > 0 && sorted[|sorted| - 1].score < e.score {
      var front := sorted[..|sorted| - 1];
      assert sorted == front + [sorted[|sorted| - 1]];
      InsertDescPermutes(front, e);
    }
  }

  /** A score bound shared by the list and the new entry holds for the result. */
  lemma {:induction false} InsertDescBound(sorted: seq<Entry>, e: Entry, b: int)
    requires forall i :: 0 <= i < |sorted| ==> sorted[i].score >= b
    requires e.score >= b
    ensures forall i :: 0 <= i < |sorted| + 1 ==> InsertDesc(sorted, e)[i].score >= b
  {
    if |sorted| > 0 && sorted[|sorted| - 1].score < e.score {
      var front := sorted[..|sorted| - 1];
      InsertDescBound(front, e, b);
    }
  }

  /** Inserting into a list sorted by descending score keeps it sorted. */
  lemma {:induction false} InsertDescSorted(sorted: seq<Entry>, e: Entry)
    requires SortedDesc(sorted)
    ensures SortedDesc(InsertDesc(sorted, e))
  {
    if |sorted| > 0 && sorted[|sorted| - 1].score < e.score {
      var front := sorted[..|sorted| - 1];
      var last := sorted[|sorted| - 1];
      InsertDescSorted(front, e);
      InsertDescBound(front, e, last.score);
      var r := InsertDesc(sorted, e);
      assert r == InsertDesc(front, e) + [last];
    }
  }

  /** `Array.prototype.sort((a, b) => b.score - a.score)`, a stable sort by descending score. */
  function SortByScore(s: seq<Entry>): (r: seq<Entry>)
    ensures SortedDesc(r)
    ensures multiset(r) == multiset(s)
  {
    if |s| == 0 then []
    else
      var front := SortByScore(s[..|s| - 1]);
      assert s == s[..|s| - 1] + [s[|s| - 1]];
      InsertDescPermutes(front, s[|s| - 1]);
      InsertDescSorted(front, s[|s| - 1]);
      InsertDesc(front, s[|s| - 1])
  }

  /** A learner with no attempts yet ranks last, below every fixed entry. */
  lemma NewLearnerRanksLast()
    ensures SortByScore(Board(0, 0))[4].isCurrentUser
  {
  }

  class SpeakingProgress {
    /** The module-level `mockExercises` the service looks exercises up in. */
    const catalogue: seq<Exercise>
    /** The fields of `userSpeakingProgress`. */
    var completedExercises: seq<string>
    var averageScore: int
    var totalAttempts: int
    var bestScores: map<string, int>

    constructor ()
      ensures catalogue == MockExercises()
      ensures completedExercises == [] && averageScore == 0 && totalAttempts == 0 && bestScores == map[]
    {
      catalogue := MockExercises();
      completedExercises := [];
      averageScore := 0;
      totalAttempts := 0;
      bestScores := map[];
    }

    /**
     * `analyzeAudio(blob, exerciseId)` with the random draw given: an
     * unknown exercise raises before anything changes; otherwise one more
     * attempt is counted, the running mean absorbs the unclamped overall
     * score, the best score and the completed list are updated.
     */
    method AnalyzeAudio(blobSize: nat, exerciseId: string, d: Draw, timestamp: string)
      returns (r: Result<Analysis>)
      requires totalAttempts >= 0
      modifies this
      ensures ExerciseIn(catalogue, exerciseId).Err? ==>
                r == Err(NotFound("Exercise", exerciseId))
                && completedExercises == old(completedExercises) && averageScore == old(averageScore)
                && totalAttempts == old(totalAttempts) && bestScores == old(bestScores)
      ensures ExerciseIn(catalogue, exerciseId).Ok? ==>
                r == Ok(Analyze(exerciseId, blobSize, d, timestamp))
                && totalAttempts == old(totalAttempts) + 1
                && averageScore == RunningMean(old(averageScore), totalAttempts, Overall(d))
                && bestScores == RecordBest(old(bestScores), exerciseId, Overall(d))
                && completedExercises == AddOnce(old(completedExercises), exerciseId)
    {
      var exercise := ExerciseIn(catalogue, exerciseId);
      if exercise.Err? {
        return Err(exercise.error);
      }
      var overall := Overall(d);
      totalAttempts := totalAttempts + 1;
      averageScore := RunningMean(averageScore, totalAttempts, overall);
      bestScores := RecordBest(bestScores, exerciseId, overall);
      completedExercises := AddOnce(completedExercises, exerciseId);
      r := Ok(Analyze(exerciseId, blobSize, d, timestamp));
    }

    /** `getLeaderboard()`: the board sorted by descending score, the user's entry included. */
    function GetLeaderboard(): (r: seq<Entry>)
      reads this
      ensures SortedDesc(r)
      ensures multiset(r) == multiset(Board(averageScore, totalAttempts))
    {
      SortByScore(Board(averageScore, totalAttempts))
    }
  }
}
