# LinguaFlow core, modelled in Dafny

LinguaFlow is a browser language-learning application. Under its views sits a
small amount of business logic, and this project models it and proves its
properties:

- the data services over in-memory tables: courses, lessons, flashcards and quizzes;
- quiz grading;
- the user progress store: XP, streak, course progress and achievements;
- the speaking-practice bookkeeping and score bands;
- the daily-reminder scheduler and the reminder settings store;
- the state machines of the quiz, flashcard, speaking-practice, reminder-settings and progress screens.

Modules follow the source files one to one:

| module | source file |
|---|---|
| `Js` | JavaScript semantics used everywhere: `Math.round` of a quotient, `find`, `findIndex`, `filter`, `splice`, number-to-string |
| `QuizService`, `CourseService`, `LessonService`, `FlashcardService` | the four data services |
| `UserProgressService` | the progress store |
| `SpeakingPracticeService` | exercise catalogue, audio analysis, leaderboard |
| `NotificationService`, `ReminderService` | reminders |
| `QuizInterface`, `FlashcardsPage`, `SpeakingPracticePage`, `NotificationSettings`, `ProgressPage` | the screens |

State the source changes in place becomes a `class`:

- Module-level arrays (`quizzesData`, `lessonsData`, …) are `seq` fields of table classes. The methods reassign them, and each method's `ensures` states the whole new table.
- `userProgressData`, `userSpeakingProgress` and the reminder storage are classes too.
- Component state (`useState`) is the set of fields of a page class, and the handlers are its methods.

Pure computations are functions, and lemmas relate them. The one loop in the
core, the `correctAnswers++` counter of `submitQuiz`, is a method proved against
the grading function.

A thrown `Error` is an `Err` result. The core calls three methods that
`userProgressService` does not define (`updateReminderPreferences`,
`markDailyPracticeComplete`, `updateSpeakingProgress`). Each such call fails
with `Err(MissingMethod(name))`, after whatever side effects precede it.

The following become parameters:

- random draws (the speaking scores, the reminder activity pick);
- the clock (a day number plus milliseconds since midnight, and `Date.now()` as a `nat`);
- the browser environment (Notification support and permission, microphone access);
- whether a `localStorage.setItem` succeeds.

Behaviour one might expect that the code does not have (the model follows
the code):

- No achievement evaluator re-checks unlock conditions after an event.
- `addXP` accepts any amount, zero and negative included.
- A flashcard rating is stored without a range check, so no invalid-argument error exists. The rating buttons only send 1, 3 and 5, which the flashcard screen takes as a precondition.
- The progress record has no `dailyPractice` field, so `lastPracticeDate` always reads as `undefined`.
- `weekdaysOnly` is stored but never read by the scheduler.
- The flashcards have no spaced-repetition interval or due date.

Some behaviour of the code is worth knowing:

- `getReminderSettings` hands out the `defaultSettings` object itself when nothing is stored. `toggleReminders` and its siblings then modify the defaults in place, so a failed save still changes later reads (`ReminderService.DisableWithoutStorage`).
- Clicking a listed activity twice moves it to the end of the list. The list comes back unchanged only when the activity was already last (`NotificationSettings.TogglePresentTwice`, `NotificationSettings.DoubleToggleReorders`).
- The flashcard completion screen shows `reviewed * 3` XP. The ratings award 5 or 2 XP each, and the two agree only when exactly a third of the reviews were correct (`FlashcardsPage.DisplayedXpMatchesAwardedOnlyAtOneThird`).
- `analyzeAudio` updates the running average with the unclamped overall score, while it reports the clamped one.
- `resetSession` does not stop a running `MediaRecorder`.

## Model

| member | source | states |
|---|---|---|
| Js.Percent | src/services/api/quizService.js:52 | `Math.round(100 * part / whole)` lies in 0..100 whenever 0 <= part <= whole |
| Js.Clamp | src/services/api/speakingPracticeService.js:125 | `Math.max(0, Math.min(100, x))` lies in the range, keeps values inside it, and maps values below or above it to the nearer end |
| Js.NatToString | src/services/api/quizService.js:81 | the decimal rendering of a number in a template string is a non-empty string of digits |
| Js.PadStart2 | src/components/pages/SpeakingPractice.jsx:152 | `padStart(2, '0')` gives at least two digits that read back as the number |
| QuizService.CorrectUpTo | src/services/api/quizService.js:37-50 | the number of correct answers among the first k questions is at most k |
| QuizService.CorrectUpToCountsMatches | src/services/api/quizService.js:37-50 | `correctAnswers` is exactly the number of indices i < k whose answer is present and equal to the question's `correctAnswer`, so a missing answer is wrong |
| QuizService.ResultsUpTo | src/services/api/quizService.js:38-50 | `results` has one entry per question, in question order, each built from that question and `answers[i]` |
| QuizService.CorrectMatchesResults | src/services/api/quizService.js:38-50 | `correctAnswers` equals the number of `results` entries marked `isCorrect` |
| QuizService.ExtraAnswersIgnored | src/services/api/quizService.js:37-50 | two answer sheets that agree on the first n positions grade identically, so answers beyond the last question are ignored |
| QuizService.Grade | src/services/api/quizService.js:52-74 | the result names the quiz and has one result per question, each recording that question's answer (a missing one as `undefined`) and whether it matches. `correctAnswers` is the number of positions whose answer matches, and the score is `Math.round(100 * correctAnswers / n)`, in 0..100. `passed` holds iff score >= `passingScore`. XP is `xpReward` on a pass and `floor(xpReward / 2)` otherwise |
| QuizService.Score | src/services/api/quizService.js:37-74 | the counting loop returns exactly the graded result |
| QuizService.GradeMonotone | src/services/api/quizService.js:52-72 | an answer sheet that is right wherever another is right never scores lower, never fails where the other passes, and never earns less XP |
| QuizService.AllCorrectScoresFull | src/services/api/quizService.js:52-53 | a perfect sheet counts every question, scores 100 and passes iff the pass mark is at most 100 |
| QuizService.SampleScores | src/services/api/quizService.js:52-72 | with five questions, pass mark 70 and reward 50: 4 right gives 80, passed, 50 XP; 3 right gives 60, failed, 25 XP |
| QuizService.MergeIdempotent | src/services/api/quizService.js:94 | applying the same `updates` twice equals applying them once |
| QuizService.MergeExtremes | src/services/api/quizService.js:94 | updates with no keys keep the record; updates with every key replace it |
| QuizService.QuizTable.constructor | src/services/api/quizService.js:1 | the table starts as the fixture array |
| QuizService.QuizTable.GetById | src/services/api/quizService.js:12-19 | fails with not-found iff no quiz has the id; otherwise returns the first quiz with that id |
| QuizService.QuizTable.GetByLessonId | src/services/api/quizService.js:21-28 | fails with not-found iff no quiz belongs to the lesson; otherwise returns the first quiz of that lesson |
| QuizService.QuizTable.SubmitQuiz | src/services/api/quizService.js:30-75 | an unknown quiz id fails with not-found and grades nothing; otherwise the result is the graded quiz found by `getById` |
| QuizService.QuizTable.Create | src/services/api/quizService.js:77-86 | appends exactly one record, the data under the id `quiz-<now>`, at the end |
| QuizService.QuizTable.Update | src/services/api/quizService.js:88-97 | an unknown id fails and leaves the table as it was; otherwise only the matching record is replaced by its merge with `updates`, which is returned |
| QuizService.QuizTable.Delete | src/services/api/quizService.js:99-108 | an unknown id fails and leaves the table as it was; otherwise exactly the matching record is spliced out and `true` is returned |
| CourseService.NewCourse | src/services/api/courseService.js:21-31 | the created course keeps the supplied title, language, level and lesson count, and starts with no lessons completed |
| CourseService.CourseTable.constructor | src/services/api/courseService.js:1 | the table starts as the fixture array |
| CourseService.CourseTable.GetById | src/services/api/courseService.js:12-19 | fails with not-found iff no course has the id; otherwise returns a course of the table with that id |
| CourseService.CourseTable.Create | src/services/api/courseService.js:21-31 | appends exactly the new course at the end |
| CourseService.CourseTable.Update | src/services/api/courseService.js:33-42 | an unknown id fails with the table unchanged; otherwise only the matching course is merged with `updates` and returned |
| CourseService.CourseTable.Delete | src/services/api/courseService.js:44-53 | an unknown id fails with the table unchanged; otherwise exactly the matching course is removed |
| LessonService.NewLesson | src/services/api/lessonService.js:26-36 | the created lesson keeps the supplied course, title and order and is not completed |
| LessonService.MarkCompleteIdempotent | src/services/api/lessonService.js:55-58 | the `markComplete` updates set only `completed`, and applying them twice equals once |
| LessonService.LessonTable.constructor | src/services/api/lessonService.js:1 | the table starts as the fixture array |
| LessonService.LessonTable.GetById | src/services/api/lessonService.js:12-19 | fails with not-found iff no lesson has the id; otherwise returns a lesson of the table with that id |
| LessonService.LessonTable.GetByCourseId | src/services/api/lessonService.js:21-24 | returns lessons of the table that belong to the course, and every lesson of the course, each as often as the table holds it |
| LessonService.LessonTable.Create | src/services/api/lessonService.js:26-36 | appends exactly the new lesson at the end; every course's lesson list is unchanged except the new lesson's course, whose list gains it at its end |
| LessonService.LessonTable.Update | src/services/api/lessonService.js:38-53 | an unknown id fails with the table unchanged; otherwise only the matching lesson is merged with `updates` and returned |
| LessonService.LessonTable.MarkComplete | src/services/api/lessonService.js:55-58 | an unknown id fails with the table unchanged; otherwise the matching lesson becomes completed and nothing else changes |
| LessonService.LessonTable.Delete | src/services/api/lessonService.js:60-69 | an unknown id fails with the table unchanged; otherwise exactly the matching lesson is removed |
| FlashcardService.NewCard | src/services/api/flashcardService.js:26-37 | the created card keeps the supplied course, front, back and category, with difficulty 1 and no review date whatever was supplied |
| FlashcardService.ReviewKeepsContent | src/services/api/flashcardService.js:49-56 | a review stores the rating unchecked, stamps the review time and leaves every other field as it was |
| FlashcardService.FlashcardTable.constructor | src/services/api/flashcardService.js:1 | the table starts as the fixture array |
| FlashcardService.FlashcardTable.GetById | src/services/api/flashcardService.js:12-19 | fails with not-found iff no card has the id; otherwise returns a card of the table with that id |
| FlashcardService.FlashcardTable.GetByCourseId | src/services/api/flashcardService.js:21-24 | returns cards of the table that belong to the course, and every card of the course, each as often as the table holds it |
| FlashcardService.FlashcardTable.Create | src/services/api/flashcardService.js:26-37 | appends exactly the new card at the end; every course's card list is unchanged except the new card's course, whose list gains it at its end |
| FlashcardService.FlashcardTable.Update | src/services/api/flashcardService.js:39-47 | an unknown id fails with the table unchanged; otherwise only the matching card is merged with `updates` and returned |
| FlashcardService.FlashcardTable.UpdateDifficulty | src/services/api/flashcardService.js:49-56 | an unknown id fails with the table unchanged; otherwise only the matching card gets the rating and review time |
| FlashcardService.FlashcardTable.Delete | src/services/api/flashcardService.js:58-67 | an unknown id fails with the table unchanged; otherwise exactly the matching card is removed |
| UserProgressService.InitialProgress | src/services/userProgressService.js:7-20 | the store starts at 1250 XP and a 7-day streak, with three courses and three achievements, all unlocked |
| UserProgressService.AddXPTo | src/services/userProgressService.js:55-62 | the total grows by exactly `amount`. The course named by the source gains `amount` iff the source is not 'general' and the course exists. No other course, the streak and the achievements do not change |
| UserProgressService.AddXPCommutes | src/services/userProgressService.js:55-62 | two XP awards give the same state in either order |
| UserProgressService.AddXPAccumulates | src/services/userProgressService.js:55-62 | two awards to the same source equal one award of their sum |
| UserProgressService.Unlock | src/services/userProgressService.js:90-94 | the list keeps its length, no achievement is re-locked, only the first match changes, and the first match ends unlocked; an unknown id changes nothing |
| UserProgressService.UnlockIdempotent | src/services/userProgressService.js:90-98 | a second unlock changes nothing and announces nothing |
| UserProgressService.UnlockCount | src/services/userProgressService.js:90-94 | the number of unlocked achievements grows by one exactly on a locked-to-unlocked transition, and otherwise stays |
| UserProgressService.InitialUnlockIsNoOp | src/services/userProgressService.js:15-19 | from the initial state no unlock call changes or announces anything |
| UserProgressService.ProgressStore.constructor | src/services/userProgressService.js:22 | the store starts as the initial progress |
| UserProgressService.ProgressStore.AddXP | src/services/userProgressService.js:55-69 | the new state is the XP award applied to the old one, and the snapshot returned is that state |
| UserProgressService.ProgressStore.UpdateStreak | src/services/userProgressService.js:71-80 | only the streak changes, by exactly one, and the milestone toast shows iff the new streak is a positive multiple of 7 |
| UserProgressService.ProgressStore.UpdateCourseProgress | src/services/userProgressService.js:82-88 | a known course gets the new completed count with no clamp and nothing else changes; an unknown course changes nothing |
| UserProgressService.ProgressStore.UnlockAchievement | src/services/userProgressService.js:90-100 | only the achievement list changes, as `Unlock` says, and the toast shows iff a locked achievement was unlocked |
| SpeakingPracticeService.MockExercises | src/services/api/speakingPracticeService.js:6-73 | the catalogue holds six exercises |
| SpeakingPracticeService.SelectFrom | src/services/api/speakingPracticeService.js:84-97 | the result holds exactly the catalogue entries that pass the difficulty filter (when a difficulty is given) and the language filter (when a language is given), each as often as the catalogue holds it |
| SpeakingPracticeService.SelectFromSnoc | src/services/api/speakingPracticeService.js:84-97 | the selection keeps catalogue order: nothing from an empty catalogue, and an exercise added at the end of the catalogue is added at the end of the selection exactly when it passes the filters |
| SpeakingPracticeService.GetExercises | src/services/api/speakingPracticeService.js:84-97 | the same membership and multiplicity, over the module catalogue |
| SpeakingPracticeService.DefaultExercisesAreAll | src/services/api/speakingPracticeService.js:84-97 | with the default arguments the whole catalogue comes back, in order |
| SpeakingPracticeService.ExerciseIn | src/services/api/speakingPracticeService.js:111-114 | finds an exercise with the id iff one exists, and otherwise fails with 'Exercise not found' |
| SpeakingPracticeService.ExerciseById | src/services/api/speakingPracticeService.js:99-106 | the same, over the module catalogue |
| SpeakingPracticeService.GeneratorRanges | src/services/api/speakingPracticeService.js:117-121 | for every draw the generator can produce, the unclamped overall score lies in 65..100, yet clarity can reach 101 and is then clamped to 100 |
| SpeakingPracticeService.Analyze | src/services/api/speakingPracticeService.js:117-148 | the report names the exercise and the timestamp. The overall score is the rounded mean clamped to 0..100. The detailed scores are Pronunciation, Fluency and Clarity in that order, each its draw clamped to 0..100. Feedback and recommendations come from the unclamped mean. `comparedToNative` is 90% of that mean, rounded, and the duration is the blob size over 16000, rounded |
| SpeakingPracticeService.FeedbackFor | src/services/api/speakingPracticeService.js:171-183 | each of the five bands exactly on its score range: >= 90, 80..89, 70..79, 60..69, < 60 |
| SpeakingPracticeService.FeedbackMonotone | src/services/api/speakingPracticeService.js:171-183 | a higher score never gets a lower feedback band |
| SpeakingPracticeService.RecommendationsFor | src/services/api/speakingPracticeService.js:185-203 | the fundamentals set iff the score is < 70, and the advanced set iff it is >= 85 |
| SpeakingPracticeService.RecommendationsMonotone | src/services/api/speakingPracticeService.js:185-203 | a higher score never gets a more basic set |
| SpeakingPracticeService.RecommendationTexts | src/services/api/speakingPracticeService.js:185-203 | every set holds exactly three tips |
| SpeakingPracticeService.RunningMeanBounds | src/services/api/speakingPracticeService.js:151-155 | the rounded running mean stays within any bounds that hold both the old mean and the new score |
| SpeakingPracticeService.RunningMeanFirst | src/services/api/speakingPracticeService.js:151-155 | the first attempt's mean is its own score |
| SpeakingPracticeService.AttemptKeepsAverageInRange | src/services/api/speakingPracticeService.js:151-155 | each generated attempt keeps the average in 0 (no attempts) or 65..100 |
| SpeakingPracticeService.RecordBest | src/services/api/speakingPracticeService.js:158-161 | only the exercise's entry may change. It ends as the new score, or as the previous best when that is truthy, and it is at least both |
| SpeakingPracticeService.BestIsMaximum | src/services/api/speakingPracticeService.js:158-161 | after a run of positive scores on a new exercise its best score is their maximum |
| SpeakingPracticeService.AddOnce | src/services/api/speakingPracticeService.js:164-166 | the id ends in the list; earlier entries stay and nothing else is added; the list grows by at most one |
| SpeakingPracticeService.AddOnceNoDuplicates | src/services/api/speakingPracticeService.js:164-166 | the completed list never gains a duplicate |
| SpeakingPracticeService.InsertDesc | src/services/api/speakingPracticeService.js:219 | inserting one entry lengthens the list by one |
| SpeakingPracticeService.InsertDescPermutes | src/services/api/speakingPracticeService.js:219 | inserting adds exactly that entry to the multiset |
| SpeakingPracticeService.InsertDescSorted | src/services/api/speakingPracticeService.js:219 | inserting into a list sorted by descending score keeps it sorted |
| SpeakingPracticeService.SortByScore | src/services/api/speakingPracticeService.js:219 | the sort returns a permutation of its input, sorted by descending score |
| SpeakingPracticeService.NewLearnerRanksLast | src/services/api/speakingPracticeService.js:213-219 | with no attempts the user's entry ranks last |
| SpeakingPracticeService.SpeakingProgress.constructor | src/services/api/speakingPracticeService.js:76-81 | no attempts, average 0, no best scores, nothing completed, over the module catalogue |
| SpeakingPracticeService.SpeakingProgress.AnalyzeAudio | src/services/api/speakingPracticeService.js:108-169 | an unknown exercise fails before any progress field changes. Otherwise: one more attempt, the running mean of the unclamped overall score, the best score recorded, the id added once, and the analysis returned |
| SpeakingPracticeService.SpeakingProgress.GetLeaderboard | src/services/api/speakingPracticeService.js:210-220 | the board, user included, as a permutation sorted by descending score |
| NotificationService.ParseTime | src/services/api/notificationService.js:229 | a parsed time's hours are the digits before the first colon |
| NotificationService.ParseFormatRoundTrip | src/services/api/notificationService.js:229 | a stored "HH:MM" splits back into the same hours and minutes |
| NotificationService.NextFire | src/services/api/notificationService.js:231-241 | the next firing lies strictly after now |
| NotificationService.NextFireIsEarliest | src/services/api/notificationService.js:231-241 | the delay is positive and at most one day. The firing falls at the chosen time of day, and no earlier instant after now does |
| NotificationService.EqualTimeGoesToTomorrow | src/services/api/notificationService.js:237-239 | a reminder time equal to now waits a full day |
| NotificationService.MessageFor | src/services/api/notificationService.js:97-104 | unknown activity types get the practice message; the three known ones get their own |
| NotificationService.Deliver | src/services/api/notificationService.js:107-119 | always reported as sent with the given title and message, by browser notification iff one can be shown, and by toast otherwise |
| NotificationService.SendDailyReminder | src/services/api/notificationService.js:94-120 | sent, titled 'LinguaFlow Reminder', with the activity's message, by browser iff a notification can be shown |
| NotificationService.StreakMessage | src/services/api/notificationService.js:125 | the message starts "Keep your " followed by the streak's digits, which read back as the streak |
| NotificationService.SendStreakReminder | src/services/api/notificationService.js:122-140 | sent, titled 'Streak Alert', with the streak message, by browser iff a notification can be shown |
| NotificationService.PermissionStatus | src/services/api/notificationService.js:157-160 | 'unsupported' without Notification support, the browser's permission otherwise |
| NotificationService.InitialSchedule | src/services/api/notificationService.js:214-218 | with no practice record, '19:00' and ['lessons']. With one, a stored non-empty time is used and a missing or empty one gives '19:00'; a stored activity list is used, even when empty, and a missing one gives ['lessons'] |
| NotificationService.NoDailyPracticeMeansDefaults | src/services/api/notificationService.js:176-182 | without a `dailyPractice` record a reminder is always unread and the defaults apply, firing at 19:00 |
| NotificationService.ActivityAt | src/services/api/notificationService.js:250 | the random pick is one of the activities; an empty list falls back to 'practice' |
| NotificationService.ReminderScheduler.constructor | src/services/api/notificationService.js:228-241 | the first timeout fires at the next firing time, after now |
| NotificationService.ReminderScheduler.Fire | src/services/api/notificationService.js:243-259 | nothing is sent iff practice was logged today. Otherwise exactly one daily reminder, for one of the activities, is appended. The next timeout is always scheduled, later than the last |
| ReminderService.MergeCompose | src/services/api/reminderService.js:46 | two successive overlays equal one overlay of the combined keys |
| ReminderService.MergeFull | src/services/api/reminderService.js:21 | a stored complete settings object reads back whole, whatever the defaults are |
| ReminderService.TestActivity | src/services/api/reminderService.js:103 | the first activity unless the list is empty or it is empty, then 'practice' |
| ReminderService.CheckTodaysPractice | src/services/api/reminderService.js:115-124 | completed iff the last practice day is today, i.e. iff no reminder is unread; reports the streak and the last practice day |
| ReminderService.CompletionFor | src/services/api/reminderService.js:131-143 | completed, with the streak and 25 XP, and a streak notification iff the streak is a positive multiple of 7 |
| ReminderService.MarkPracticeComplete | src/services/api/reminderService.js:127-129 | fails at the undefined `markDailyPracticeComplete` |
| ReminderService.ReminderStore.constructor | src/services/api/reminderService.js:9-15 | the defaults object and the given storage item |
| ReminderService.ReminderStore.Current | src/services/api/reminderService.js:18-26 | the defaults overlaid by the stored keys, or the defaults object itself when nothing readable is stored |
| ReminderService.ReminderStore.Save | src/services/api/reminderService.js:29-35 | a successful save stores every key of the settings; a failed one leaves storage as it was |
| ReminderService.ReminderStore.UpdateSettings | src/services/api/reminderService.js:44-57 | the current settings overlaid by the new keys are saved before the progress call, which then fails |
| ReminderService.ReminderStore.ToggleReminders | src/services/api/reminderService.js:59-72 | only `enabled` changes. When the read returned the defaults object, that object changes too |
| ReminderService.ReminderStore.SetReminderTime | src/services/api/reminderService.js:74-82 | only `time` changes, in the same way |
| ReminderService.ReminderStore.UpdateActivities | src/services/api/reminderService.js:84-92 | only `activities` changes, in the same way |
| ReminderService.ReminderStore.SendTestReminder | src/services/api/reminderService.js:94-113 | nothing is sent iff reminders are disabled; otherwise a daily reminder for the test activity |
| ReminderService.DisableWithoutStorage | src/services/api/reminderService.js:59-63 | with nothing stored and a failing save, disabling still takes effect by changing the defaults object |
| QuizInterface.AnswerArray | src/components/organisms/QuizInterface.jsx:42 | one entry per question, present exactly where the question was answered, holding that answer |
| QuizInterface.AnswerArrayCorrect | src/components/organisms/QuizInterface.jsx:42-43 | grading the answer array counts exactly the answered questions whose choice is right |
| QuizInterface.QuizXpTouchesOnlyTotal | src/components/organisms/QuizInterface.jsx:47-49 | XP credited under 'quiz' changes only the total, unless a course is called 'quiz' |
| QuizInterface.QuizSession.constructor | src/components/organisms/QuizInterface.jsx:11-14 | first question, no answers, no results |
| QuizInterface.QuizSession.SelectAnswer | src/components/organisms/QuizInterface.jsx:18-23 | sets or overwrites the current question's answer only |
| QuizInterface.QuizSession.Previous | src/components/organisms/QuizInterface.jsx:33-37 | one question back, never below the first; the index stays on a question |
| QuizInterface.QuizSession.Next | src/components/organisms/QuizInterface.jsx:25-31 | only once the question is answered. Before the last question it moves one on, with results and the store unchanged. On the last it submits: an unknown quiz changes nothing; otherwise the graded answer array is shown and positive XP is credited under 'quiz' |
| QuizInterface.QuizSession.Submit | src/components/organisms/QuizInterface.jsx:39-57 | a failed submission changes nothing. Otherwise the results are the graded answer array, shown, and positive XP is credited under 'quiz' |
| QuizInterface.QuizSession.Retake | src/components/organisms/QuizInterface.jsx:59-64 | only after a failed attempt: back to the first question with no answers and no results |
| FlashcardsPage.XpForRating | src/components/pages/Flashcards.jsx:59 | 5 XP for a rating that counts correct (>= 3), else 2 |
| FlashcardsPage.AfterRating | src/components/pages/Flashcards.jsx:52-56 | a rating adds one review, and one correct answer iff it is >= 3 |
| FlashcardsPage.Accuracy | src/components/pages/Flashcards.jsx:138-140 | the corrected figure: 0 with no reviews, in 0..100, 100 when all reviews were correct, and 0 when none were |
| FlashcardsPage.ToastAsWrittenAfterCorrectRating | src/components/pages/Flashcards.jsx:73-77 | the as-written toast is right when the last action was a correct rating |
| FlashcardsPage.ToastAsWrittenCanMatchAfterSkip | src/components/pages/Flashcards.jsx:73-77 | the as-written toast can agree with the accuracy without a correct last rating: one card rated correct and one skipped give 100 both ways |
| FlashcardsPage.AsWrittenAccuracyCounterexamples | src/components/pages/Flashcards.jsx:73-77 | one skipped card: the toast claims 100% and the screen divides 0 by 0; one card rated hard: the toast claims 100% |
| FlashcardsPage.DisplayedXpMatchesAwardedOnlyAtOneThird | src/components/pages/Flashcards.jsx:187 | the displayed XP equals the awarded XP iff a third of the reviews were correct, and is lower when all were |
| FlashcardsPage.ReviewSession.constructor | src/components/pages/Flashcards.jsx:32-38 | first card, zeroed counters with the card count as total, not complete |
| FlashcardsPage.ReviewSession.Remaining | src/components/pages/Flashcards.jsx:307 | the remaining figure is never negative and counts the cards after the current one |
| FlashcardsPage.ReviewSession.Advance | src/components/pages/Flashcards.jsx:63-67 | the next card before the last; on the last, completion with the toast figure computed, as written, from the counters the calling handler read |
| FlashcardsPage.ReviewSession.Rate | src/components/pages/Flashcards.jsx:47-71 | a card that cannot be stored changes nothing, the card table included. Otherwise the table's card takes the rating and review time, the counters take the rating, the store gets its XP for the course, and the session advances or completes. On completion the toast shows the as-written figure from the counters before this rating, which equals the session's accuracy when the rating counts as correct |
| FlashcardsPage.ReviewSession.Skip | src/components/pages/Flashcards.jsx:99-105 | counters unchanged; advances, or completes with the as-written toast figure for the current counters |
| FlashcardsPage.ReviewSession.Restart | src/components/pages/Flashcards.jsx:85-93 | first card, zeroed counters with the card count as total, not complete |
| SpeakingPracticePage.FormatTime | src/components/pages/SpeakingPractice.jsx:149-153 | at least "m:ss" |
| SpeakingPracticePage.FormatTimeReadsBack | src/components/pages/SpeakingPractice.jsx:149-153 | the text splits at its colon into minutes and seconds below 60 with minutes * 60 + seconds equal to the input |
| SpeakingPracticePage.BandMonotone | src/components/pages/SpeakingPractice.jsx:155-167 | a higher score never gets a lower colour band |
| SpeakingPracticePage.ScoreColor | src/components/pages/SpeakingPractice.jsx:155-160 | each of the four text colours exactly on its score range: >= 90, 80..89, 70..79, < 70 |
| SpeakingPracticePage.ScoreBackground | src/components/pages/SpeakingPractice.jsx:162-167 | each of the four backgrounds exactly on its score range: >= 90, 80..89, 70..79, < 70 |
| SpeakingPracticePage.IndexOfId | src/components/pages/SpeakingPractice.jsx:132 | the first position with the current id, or -1 when none has it |
| SpeakingPracticePage.NextIndex | src/components/pages/SpeakingPractice.jsx:129-134 | a valid index, 0 when the current exercise is not in the list |
| SpeakingPracticePage.NextIndexOf | src/components/pages/SpeakingPractice.jsx:132-133 | with distinct ids, the exercise after index i is at (i + 1) mod n |
| SpeakingPracticePage.Cycle | src/components/pages/SpeakingPractice.jsx:129-134 | repeated presses stay on a valid index |
| SpeakingPracticePage.CycleVisitsInOrder | src/components/pages/SpeakingPractice.jsx:129-134 | k presses from index i land on (i + k) mod n, so n presses come back to the start |
| SpeakingPracticePage.PracticePage.constructor | src/components/pages/SpeakingPractice.jsx:40-55 | the loaded exercises, the first one current when there is one, nothing recorded |
| SpeakingPracticePage.PracticePage.StartRecording | src/components/pages/SpeakingPractice.jsx:57-90 | with microphone access: recording, with a recorder and timer, from 0 seconds; without it nothing changes. The exercise, blob and results are untouched either way |
| SpeakingPracticePage.PracticePage.Tick | src/components/pages/SpeakingPractice.jsx:82-84 | one second more; nothing else changes |
| SpeakingPracticePage.PracticePage.StopRecording | src/components/pages/SpeakingPractice.jsx:92-107 | acts only while recording with a recorder: stops, stops the timer and keeps the blob; otherwise nothing changes. The recorder, time, exercise and results are untouched either way |
| SpeakingPracticePage.PracticePage.AnalyzeRecording | src/components/pages/SpeakingPractice.jsx:109-127 | nothing happens without a blob or a current exercise. For a known exercise the analysis is shown, the progress counts the attempt, absorbs the score into the running mean, records the best score and lists the exercise once, and then `updateSpeakingProgress` fails. An unknown exercise fails with the page and the progress unchanged. The recording state is untouched throughout |
| SpeakingPracticePage.PracticePage.ResetSession | src/components/pages/SpeakingPractice.jsx:138-147 | no blob, no results, results hidden, time 0, not recording, timer stopped; the recorder is left as it was |
| SpeakingPracticePage.PracticePage.SelectNextExercise | src/components/pages/SpeakingPractice.jsx:129-136 | an empty list changes nothing; otherwise the following exercise, wrapping, with a fresh session and the timer stopped. The recorder is left as it was |
| NotificationSettings.ToggleActivity | src/components/pages/NotificationSettings.jsx:31-34 | a listed activity loses every occurrence, and every other activity stays listed; an unlisted one is appended at the end |
| NotificationSettings.ToggleKeepsNoDuplicates | src/components/pages/NotificationSettings.jsx:31-34 | a duplicate-free list stays duplicate-free |
| NotificationSettings.ToggleAbsentTwice | src/components/pages/NotificationSettings.jsx:31-39 | two clicks on an unlisted activity restore the list exactly |
| NotificationSettings.TogglePresentTwice | src/components/pages/NotificationSettings.jsx:31-39 | two clicks on a listed activity of a duplicate-free list restore its contents, and its order iff the activity was last |
| NotificationSettings.DoubleToggleReorders | src/components/pages/NotificationSettings.jsx:31-34 | with the default activities, two clicks on 'lessons' give ['flashcards', 'speaking', 'lessons'] |
| NotificationSettings.SettingsPage.constructor | src/components/pages/NotificationSettings.jsx:13-17 | the local copy is the loaded settings |
| NotificationSettings.SettingsPage.Persist | src/components/pages/NotificationSettings.jsx:22 | a successful save makes the store read back exactly the local copy, and the progress call then fails |
| NotificationSettings.SettingsPage.ToggleReminders | src/components/pages/NotificationSettings.jsx:19-23 | only `enabled` flips, then the copy is saved |
| NotificationSettings.SettingsPage.TimeChange | src/components/pages/NotificationSettings.jsx:25-29 | only `time` changes, then the copy is saved |
| NotificationSettings.SettingsPage.ActivityClick | src/components/pages/NotificationSettings.jsx:243 | ignored while reminders are off; otherwise only the activity list is toggled, then saved |
| NotificationSettings.SettingsPage.WeekdaysToggle | src/components/pages/NotificationSettings.jsx:41-45 | only `weekdaysOnly` flips, then the copy is saved |
| NotificationSettings.SettingsPage.TestReminder | src/components/pages/NotificationSettings.jsx:47-56 | nothing is sent iff the permission neither was nor becomes 'granted'; otherwise the store's test reminder |
| ProgressPage.SumsAppend | src/components/pages/Progress.jsx:103-104 | both lesson sums split over a concatenation of course lists |
| ProgressPage.CompletedWithinTotal | src/components/pages/Progress.jsx:103-104 | when each course's completed count is within its total, so are the sums |
| ProgressPage.AllFinishedSums | src/components/pages/Progress.jsx:103-104 | when every course is finished, the completed sum equals the total |
| ProgressPage.OverallProgress | src/components/pages/Progress.jsx:105 | 0 when there are no lessons, otherwise the rounded percentage of completed lessons |
| ProgressPage.OverallProgressBounds | src/components/pages/Progress.jsx:105 | with consistent courses the overall progress lies in 0..100 |
| ProgressPage.OverallProgressFull | src/components/pages/Progress.jsx:105 | when every course is finished and there are lessons, it is 100 |
| ProgressPage.UnlockedCount | src/components/pages/Progress.jsx:197 | the number of unlocked achievements, at most their number, and 0 before the record loads |
| ProgressPage.UnlockedCountAfterUnlock | src/components/pages/Progress.jsx:197 | an unlock raises the figure by one exactly when the achievement was locked |
| ProgressPage.InitialUnlockedCount | src/components/pages/Progress.jsx:197 | with the initial record the figure is 3 |

## Left out

- Toasts, `console.error`, and the artificial `delay` awaits. They have no state the core reads.
- Rendering, routing, animation and the floating-point progress bars (`QuizInterface.jsx:72`, `Flashcards.jsx:217`).
- `Leaderboard.jsx` and `VideoPlayer.jsx`. They hold presentation mappings and floating-point progress only.
- MediaRecorder, getUserMedia and stream internals. The recorder is a flag, the blob is its size, and microphone access is a parameter.
- Randomness, clock and browser APIs are parameters: the three speaking scores, the reminder activity pick, `Date.now()`, `new Date()`, Notification support and permission, and storage success.
- Concurrency between `async` handlers is not modelled. Each handler runs to completion, as if the awaits interleaved with nothing.
- Floating-point division before `Math.round` is taken as exact rational division.
- The mock JSON fixtures are arbitrary inputs to the table constructors.
- Copies handed out by the services (`{ ...quiz }`) are values in the model. The shallow copy of `initialProgress` (its nested objects are shared) is not observable through the modelled operations.
- `getAll` of the quiz, lesson and flashcard services is the table field itself. CourseService.CourseTable.GetAll returns the table and carries no contract beyond that.
- `getUserProgress`, `saveProgress` and the browser-support probes of the speaking service; `sendCustomReminder`, `requestPermission` and `getReminderHistory`. They are toasts, mock data or browser probes with no core logic.
- The loading and error states of the `useReminders` and `useNotifications` hooks; the hook's update catches the failing progress call and keeps the old settings.
- NotificationService.ParseTime: states only which text the hours come from, and yields no time for fields that are not digit strings. JavaScript's `Number` would coerce such fields to `NaN` or a number, and the scheduler would then fire at an invalid date.
- NotificationService.NextFire: states only that the firing lies after now; NotificationService.NextFireIsEarliest carries the full rule.
- NotificationService.ReminderScheduler.Fire: an error thrown inside the timeout callback would end the cycle; the store's `get` cannot throw, so this is not modelled.
- SpeakingPracticeService.MockExercises: only the fields the core reads (id, title, difficulty, type, language) are kept.
- SpeakingPracticePage.FormatTime: its own contract states only the length; SpeakingPracticePage.FormatTimeReadsBack carries the meaning.
- FlashcardsPage.ReviewSession: the session keeps the toast figure as the code computes it. FlashcardsPage.Accuracy, the corrected figure, is what the completion screen should show, and FlashcardsPage.ReviewSession.Rate ties the two after a correct rating.
- FlashcardsPage.ReviewSession: `currentIndex` must stay on a card, so the empty-deck view (which renders no rating buttons) is not modelled.

## Findings

| source | as written | input that shows it | evidently intended | confidence | as-written member | corrected member |
|---|---|---|---|---|---|---|
| src/components/pages/Flashcards.jsx:73-77 | the completion toast computes `round(100 * (correct + 1) / (reviewed + 1))` from the counters as they were before the last action, so it assumes the last action was a correct rating | a one-card deck, skipped: toast says 100% with nothing reviewed; the same card rated hard: toast says 100% with nothing correct | the accuracy of the counters after the last action, 0 when nothing was reviewed | high, not executed | FlashcardsPage.AsWrittenAccuracyCounterexamples | FlashcardsPage.Accuracy |
| src/components/pages/Flashcards.jsx:138-140 | the completion screen guards the division on `total > 0` and divides by `reviewed` | a one-card deck, skipped: `0 / 0` shows `NaN%` | guard on `reviewed > 0`, showing 0 | high, not executed | FlashcardsPage.AsWrittenAccuracyCounterexamples | FlashcardsPage.Accuracy |
