/**
 * The speaking-practice page: the recording timer display, the score
 * colour bands, cycling through the exercises, and the recording and
 * analysis state with its guards. The microphone and the recorder are
 * reduced to whether access was granted and how many bytes were recorded.
 */
module SpeakingPracticePage {
  import opened Js
  import opened SpeakingPracticeService

  // ---------------------------------------------------------------------
  // m:ss

  /** `formatTime(seconds)`: whole minutes, a colon, and the seconds padded to two digits. */
  function FormatTime(seconds: nat): (r: string)
    ensures |r| >= 4
  {
    NatToString(seconds / 60) + ":" + PadStart2(seconds % 60)
  }

  /** The text splits at its colon into minutes and seconds that add back up to the input. */
  lemma FormatTimeReadsBack(seconds: nat)
    ensures var r := FormatTime(seconds);
            var i := |NatToString(seconds / 60)|;
            i < |r| && r[i] == ':' && IsDigits(r[..i]) && IsDigits(r[i + 1..])
            && DecimalValue(r[i + 1..]) < 60
            && DecimalValue(r[..i]) * 60 + DecimalValue(r[i + 1..]) == seconds
  {
    var m, s := NatToString(seconds / 60), PadStart2(seconds % 60);
    var r := FormatTime(seconds);
    assert r[..|m|] == m;
    assert r[|m| + 1..] == s;
    DecimalRoundTrip(seconds / 60);
  }

  // ---------------------------------------------------------------------
  // Score colours

  datatype ScoreBand = Low | Fair | Good | High

  /** The thresholds `getScoreColor` and `getScoreBackground` share: 90, 80 and 70. */
  function BandOf(score: int): ScoreBand
  {
    if score >= 90 then High else if score >= 80 then Good else if score >= 70 then Fair else Low
  }

  function BandRank(b: ScoreBand): nat
  {
    match b
    case Low => 0
    case Fair => 1
    case Good => 2
    case High => 3
  }

  /** A higher score never gets a lower band. */
  lemma BandMonotone(s: int, t: int)
    requires s <= t
    ensures BandRank(BandOf(s)) <= BandRank(BandOf(t))
  {
  }

  /** The text class of a band. */
  function TextClass(b: ScoreBand): string
  {
    match b
    case High => "text-success"
    case Good => "text-warning"
    case Fair => "text-accent"
    case Low => "text-error"
  }

  /** The background and border classes of a band. */
  function BackgroundClass(b: ScoreBand): string
  {
    match b
    case High => "bg-success/10 border-success/20"
    case Good => "bg-warning/10 border-warning/20"
    case Fair => "bg-accent/10 border-accent/20"
    case Low => "bg-error/10 border-error/20"
  }

  /** `getScoreColor(score)`: the text class of the score's band. */
  function ScoreColor(score: int): (c: string)
    ensures c == "text-success" <==> score >= 90
    ensures c == "text-warning" <==> 80 <= score < 90
    ensures c == "text-accent" <==> 70 <= score < 80
    ensures c == "text-error" <==> score < 70
  {
    TextClass(BandOf(score))
  }

  /** `getScoreBackground(score)`: the background and border classes of the score's band. */
  function ScoreBackground(score: int): (c: string)
    ensures c == "bg-success/10 border-success/20" <==> score >= 90
    ensures c == "bg-warning/10 border-warning/20" <==> 80 <= score < 90
    ensures c == "bg-accent/10 border-accent/20" <==> 70 <= score < 80
    ensures c == "bg-error/10 border-error/20" <==> score < 70
  {
    BackgroundClass(BandOf(score))
  }

  // ---------------------------------------------------------------------
  // Cycling through the exercises

  /** `exercises.findIndex(ex => ex.id === id)`: the first position with that id, or -1. */
  function IndexOfId(exercises: seq<Exercise>, id: Option<string>): (i: int)
    ensures -1 <= i < |exercises|
    ensures i >= 0 ==> Some(exercises[i].id) == id && forall j :: 0 <= j < i ==> Some(exercises[j].id) != id
    ensures i < 0 ==> forall j :: 0 <= j < |exercises| ==> Some(exercises[j].id) != id
  {
    if |exercises| == 0 then -1
    else if Some(exercises[0].id) == id then 0
    else
      var k := IndexOfId(exercises[1..], id);
      if k < 0 then -1 else k + 1
  }

  /**
   * The index `selectNextExercise` moves to: the one after the current
   * exercise, wrapping around, or the first when the current exercise is
   * not in the list.
   */
  function NextIndex(exercises: seq<Exercise>, currentId: Option<string>): (r: nat)
    requires |exercises| > 0
    ensures r < |exercises|
    ensures (forall i :: 0 <= i < |exercises| ==> currentId != Some(exercises[i].id)) ==> r == 0
  {
    (IndexOfId(exercises, currentId) + 1) % |exercises|
  }

  predicate DistinctIds(exercises: seq<Exercise>)
  {
    forall i, j :: 0 <= i < j < |exercises| ==> exercises[i].id != exercises[j].id
  }

  /** With distinct ids, the exercise after index `i` is at `(i + 1) mod n`. */
  lemma NextIndexOf(exercises: seq<Exercise>, i: nat)
    requires DistinctIds(exercises) && i < |exercises|
    ensures NextIndex(exercises, Some(exercises[i].id)) == (i + 1) % |exercises|
  {
    var k := IndexOfId(exercises, Some(exercises[i].id));
    assert k == i;
  }

  /** The index after `steps` presses of "next" from `start`. */
  function Cycle(exercises: seq<Exercise>, start: nat, steps: nat): (r: nat)
    requires |exercises| > 0 && start < |exercises|
    ensures r < |exercises|
  {
    if steps == 0 then start
    else NextIndex(exercises, Some(exercises[Cycle(exercises, start, steps - 1)].id))
  }

  /** One more press moves one index on, wrapping around. */
  lemma CycleStep(exercises: seq<Exercise>, start: nat, steps: nat)
    requires DistinctIds(exercises) && |exercises| > 0 && start < |exercises| && steps > 0
    ensures Cycle(exercises, start, steps) == (Cycle(exercises, start, steps - 1) + 1) % |exercises|
  {
    NextIndexOf(exercises, Cycle(exercises, start, steps - 1));
  }

  /** Pressing "next" k times from index i lands on `(i + k) mod n`; n presses come back to the start. */
  lemma {:induction false} CycleVisitsInOrder(exercises: seq<Exercise>, start: nat, steps: nat)
    requires DistinctIds(exercises) && |exercises| > 0 && start < |exercises|
    ensures Cycle(exercises, start, steps) == (start + steps) % |exercises|
  {
    if steps == 0 {
      CycleZero(exercises, start);
    } else {
      CycleVisitsInOrder(exercises, start, steps - 1);
      CycleInduct(exercises, start, steps);
    }
  }

  /** No press leaves the start. */
  lemma CycleZero(exercises: seq<Exercise>, start: nat)
    requires |exercises| > 0 && start < |exercises|
    ensures Cycle(exercises, start, 0) == start % |exercises|
  {
    ModUnique(start, |exercises|, 0, start);
  }

  /** The induction step: one more press after `(start + steps - 1) mod n` lands on `(start + steps) mod n`. */
  lemma CycleInduct(exercises: seq<Exercise>, start: nat, steps: nat)
    requires DistinctIds(exercises) && |exercises| > 0 && start < |exercises| && steps > 0
    requires Cycle(exercises, start, steps - 1) == (start + (steps - 1)) % |exercises|
    ensures Cycle(exercises, start, steps) == (start + steps) % |exercises|
  {
    CycleStep(exercises, start, steps);
    SuccOfMod(start + steps - 1, |exercises|, Cycle(exercises, start, steps - 1));
  }

  /** The successor of a remainder, wrapped, is the remainder of the successor. */
  lemma SuccOfMod(x: nat, n: nat, prev: nat)
    requires n > 0 && prev == x % n
    ensures (prev + 1) % n == (x + 1) % n
  {
    ModSucc(x, n);
  }

  /** A remainder is determined by any quotient-remainder split of the number. */
  lemma ModUnique(a: int, n: int, q: int, r: int)
    requires n > 0 && 0 <= r < n && a == q * n + r
    ensures a % n == r
  {
    var q2, r2 := a / n, a % n;
    assert (q - q2) * n == r2 - r;
    if q > q2 {
      MulMonotone(n, 1, q - q2);
    } else if q < q2 {
      MulMonotone(n, 1, q2 - q);
    }
  }

  lemma ModSucc(a: nat, n: nat)
    requires n > 0
    ensures (a % n + 1) % n == (a + 1) % n
  {
    var q, r := a / n, a % n;
    if r + 1 == n {
      ModUnique(r + 1, n, 1, 0);
      ModUnique(a + 1, n, q + 1, 0);
    } else {
      ModUnique(r + 1, n, 0, r + 1);
      ModUnique(a + 1, n, q, r + 1);
    }
  }

  // ---------------------------------------------------------------------
  // The page state

  class PracticePage {
    var exercises: seq<Exercise>
    var current: Option<Exercise>
    var isRecording: bool
    /** Whether `mediaRecorderRef.current` holds a recorder. */
    var hasRecorder: bool
    /** Whether the one-second interval is running. */
    var timerRunning: bool
    /** The size of `audioBlob`, when one exists. */
    var blobSize: Option<nat>
    var results: Option<Analysis>
    var showResults: bool
    var recordingTime: nat

    predicate Valid()
      reads this
    {
      (current.Some? ==> current.value in exercises)
      && (showResults ==> results.Some?)
      && (isRecording ==> hasRecorder)
    }

    /**
     * The page once `loadExercises` has stored what `getExercises()`
     * returned: the first exercise selected when there is one.
     */
    constructor (loaded: seq<Exercise>)
      ensures Valid()
      ensures exercises == loaded
      ensures current == if |loaded| > 0 then Some(loaded[0]) else None
      ensures !isRecording && !hasRecorder && !timerRunning && blobSize == None && results == None
      ensures !showResults && recordingTime == 0
    {
      exercises := loaded;
      current := if |loaded| > 0 then Some(loaded[0]) else None;
      isRecording := false;
      hasRecorder := false;
      timerRunning := false;
      blobSize := None;
      results := None;
      showResults := false;
      recordingTime := 0;
    }

    /** `startRecording()`: with microphone access, recording from 0 seconds; without it nothing changes. */
    method StartRecording(microphoneGranted: bool)
      requires Valid()
      modifies this
      ensures Valid()
      ensures microphoneGranted ==> isRecording && hasRecorder && timerRunning && recordingTime == 0
      ensures !microphoneGranted ==>
                isRecording == old(isRecording) && recordingTime == old(recordingTime)
                && hasRecorder == old(hasRecorder) && timerRunning == old(timerRunning)
      ensures blobSize == old(blobSize) && results == old(results) && current == old(current)
      ensures exercises == old(exercises) && showResults == old(showResults)
    {
      if microphoneGranted {
        hasRecorder := true;
        isRecording := true;
        recordingTime := 0;
        timerRunning := true;
      }
    }

    /** One tick of the interval. */
    method Tick()
      requires Valid() && timerRunning
      modifies this
      ensures Valid()
      ensures recordingTime == old(recordingTime) + 1
      ensures isRecording == old(isRecording) && blobSize == old(blobSize) && timerRunning
      ensures hasRecorder == old(hasRecorder) && results == old(results) && showResults == old(showResults)
      ensures current == old(current) && exercises == old(exercises)
    {
      recordingTime := recordingTime + 1;
    }

    /**
     * `stopRecording()`: acts only while a recorder is recording; the
     * recorder's stop event then leaves a blob of the recorded size.
     */
    method StopRecording(recordedBytes: nat)
      requires Valid()
      modifies this
      ensures Valid()
      ensures old(hasRecorder && isRecording) ==> !isRecording && !timerRunning && blobSize == Some(recordedBytes)
      ensures !old(hasRecorder && isRecording) ==>
                isRecording == old(isRecording) && timerRunning == old(timerRunning) && blobSize == old(blobSize)
      ensures recordingTime == old(recordingTime) && results == old(results) && current == old(current)
      ensures exercises == old(exercises) && showResults == old(showResults) && hasRecorder == old(hasRecorder)
    {
      if hasRecorder && isRecording {
        isRecording := false;
        timerRunning := false;
        blobSize := Some(recordedBytes);
      }
    }

    /**
     * `analyzeRecording()`: a no-op without a blob or an exercise.
     * Otherwise the service analyses the blob; a report is shown, after
     * which the progress call fails on a method the progress store does not
     * define, and that failure is what the page reports.
     */
    method AnalyzeRecording(progress: SpeakingProgress, d: Draw, timestamp: string) returns (failure: Option<Error>)
      requires Valid() && progress.totalAttempts >= 0
      modifies this, progress
      ensures Valid()
      ensures old(blobSize.None? || current.None?) ==>
                failure == None && results == old(results) && showResults == old(showResults)
                && progress.totalAttempts == old(progress.totalAttempts)
                && progress.averageScore == old(progress.averageScore)
                && progress.bestScores == old(progress.bestScores)
                && progress.completedExercises == old(progress.completedExercises)
      ensures old(blobSize.Some? && current.Some?) ==>
                var id := old(current).value.id;
                var score := Overall(d);
                (ExerciseIn(progress.catalogue, id).Ok? ==>
                   results == Some(Analyze(id, old(blobSize).value, d, timestamp)) && showResults
                   && progress.totalAttempts == old(progress.totalAttempts) + 1
                   && progress.averageScore == RunningMean(old(progress.averageScore), progress.totalAttempts, score)
                   && progress.bestScores == RecordBest(old(progress.bestScores), id, score)
                   && progress.completedExercises == AddOnce(old(progress.completedExercises), id)
                   && failure == Some(MissingMethod("updateSpeakingProgress")))
                && (ExerciseIn(progress.catalogue, id).Err? ==>
                      results == old(results) && showResults == old(showResults)
                      && progress.totalAttempts == old(progress.totalAttempts)
                      && progress.averageScore == old(progress.averageScore)
                      && progress.bestScores == old(progress.bestScores)
                      && progress.completedExercises == old(progress.completedExercises)
                      && failure == Some(NotFound("Exercise", id)))
      ensures current == old(current) && blobSize == old(blobSize) && exercises == old(exercises)
      ensures isRecording == old(isRecording) && hasRecorder == old(hasRecorder)
      ensures timerRunning == old(timerRunning) && recordingTime == old(recordingTime)
    {
      if blobSize.None? || current.None? {
        return None;
      }
      var r := progress.AnalyzeAudio(blobSize.value, current.value.id, d, timestamp);
      if r.Err? {
        return Some(r.error);
      }
      results := Some(r.value);
      showResults := true;
      failure := Some(MissingMethod("updateSpeakingProgress"));
    }

    /** `resetSession()`: no blob, no results, time 0, not recording, timer stopped. */
    method ResetSession()
      requires Valid()
      modifies this
      ensures Valid()
      ensures blobSize == None && results == None && !showResults && recordingTime == 0 && !isRecording && !timerRunning
      ensures current == old(current) && exercises == old(exercises) && hasRecorder == old(hasRecorder)
    {
      blobSize := None;
      results := None;
      showResults := false;
      recordingTime := 0;
      isRecording := false;
      timerRunning := false;
    }

    /** `selectNextExercise()`: the following exercise, wrapping around, and a fresh session; no exercises, no change. */
    method SelectNextExercise()
      requires Valid()
      modifies this
      ensures Valid()
      ensures |exercises| == 0 ==>
                current == old(current) && blobSize == old(blobSize) && results == old(results)
                && showResults == old(showResults) && recordingTime == old(recordingTime)
                && isRecording == old(isRecording) && timerRunning == old(timerRunning)
      ensures |exercises| > 0 ==>
                current == Some(exercises[NextIndex(exercises, if old(current).Some? then Some(old(current).value.id) else None)])
                && blobSize == None && results == None && !showResults && recordingTime == 0 && !isRecording
                && !timerRunning
      ensures exercises == old(exercises) && hasRecorder == old(hasRecorder)
    {
      if |exercises| == 0 {
        return;
      }
      var i := NextIndex(exercises, if current.Some? then Some(current.value.id) else None);
      current := Some(exercises[i]);
      ResetSession();
    }
  }
}
