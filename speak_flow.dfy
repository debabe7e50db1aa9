/**
 * The speaking-practice interaction as a state machine over one snapshot of
 * the container, the mobile page and the audio hook. Every handler and
 * every effect of the page is one transition function here; the classes in
 * module SpeakMobile are proved to perform exactly these transitions.
 */
module SpeakFlow {
  import opened SpeakTypes
  import opened SpeakingAudio

  /** The app-level view the page can switch to (`handler.changeView`). */
  datatype View = Speaking | Story

  /** Arguments handed to the recorder by `startRecording`. */
  datatype RecordRequest = RecordRequest(sentence: Option<string>, soundPath: string)

  /** The record `saveResult` submits (the study ids come from the app
      context and are not modelled). */
  datatype SpeakUserAnswer = SpeakUserAnswer(
    challengeNumber: int,
    page: int,
    sequence: int,
    quizNo: int,
    sentence: Option<string>,
    scoreOverall: real,
    words: ScoreResult,
    isLastQuiz: bool)

  /** Container state (tryCount, quizIndex, bar), page state (isWorking,
      score, resultOpen, view) and the audio hook's player. */
  datatype Session = Session(
    tryCount: int,
    quizIndex: int,
    bar: PlayBarState,
    isWorking: bool,
    score: Option<ScoreResult>,
    resultOpen: bool,
    view: View,
    player: Player)

  predicate InRange(s: Session, items: seq<SpeakItem>) {
    0 <= s.quizIndex < |items|
  }

  /** Number of items at index `i` or later whose sentence is not null. */
  function SentencesFrom(items: seq<SpeakItem>, i: nat): nat
    decreases |items| - i
  {
    if i >= |items| then 0
    else (if items[i].sentence.Some? then 1 else 0) + SentencesFrom(items, i + 1)
  }

  /** `isLastQuiz`: the filter of items after `quizIndex` with a non-null
      sentence is empty. */
  function IsLastQuiz(items: seq<SpeakItem>, quizIndex: int): bool {
    SentencesFrom(items, if quizIndex + 1 < 0 then 0 else quizIndex + 1) == 0
  }

  lemma {:induction false} SentencesFromZero(items: seq<SpeakItem>, i: nat)
    ensures SentencesFrom(items, i) == 0 <==> forall j :: i <= j < |items| ==> items[j].sentence.None?
    decreases |items| - i
  {
    if i < |items| {
      SentencesFromZero(items, i + 1);
    }
  }

  /** `isLastQuiz` holds exactly when no item after `quizIndex` has a sentence. */
  lemma IsLastQuizIff(items: seq<SpeakItem>, quizIndex: int)
    ensures IsLastQuiz(items, quizIndex) <==>
      forall i :: 0 <= i < |items| && quizIndex < i ==> items[i].sentence.None?
  {
    SentencesFromZero(items, if quizIndex + 1 < 0 then 0 else quizIndex + 1);
  }

  /** The outcome of the attempt is final: a pass, or the last of the tries. */
  predicate Finalizes(totalScore: real, tryCount: int) {
    totalScore >= PassScore || tryCount + 1 >= MaxTries
  }

  // ---------------------------------------------------------------------
  // Transitions of the mobile page

  /** `playSentence` (and `clickSentence`, which only adds the same guard). */
  function PlaySentence(s: Session, items: seq<SpeakItem>): Session {
    if s.isWorking then s
    else
      s.(isWorking := true,
         bar := PlayingSentence,
         player := Play(s.player, items, s.player.pageSeq.playPage, s.player.pageSeq.sequence))
  }

  /** `startRecord`: take the busy flag and stop the player; the recorder is
      then started with `RecordRequestFor`. */
  function StartRecord(s: Session): Session {
    if s.isWorking then s
    else s.(isWorking := true, player := Stop(s.player))
  }

  /** What `startRecord` hands to the recorder, if anything. */
  function RecordRequestFor(s: Session, items: seq<SpeakItem>): Option<RecordRequest>
    requires InRange(s, items)
  {
    if s.isWorking then None
    else Some(RecordRequest(items[s.quizIndex].sentence, items[s.quizIndex].soundPath))
  }

  /** The recorder reports a bar state through `changePlayBarState`. */
  function ChangePlayBarState(s: Session, bar: PlayBarState): Session {
    s.(bar := bar)
  }

  /** `changeSentenceScore` followed by the effect on `sentenceScore`: a final
      outcome is saved (see `SaveRequestFor`), otherwise the result view opens. */
  function ChangeSentenceScore(s: Session, score: ScoreResult): Session {
    var t := s.(score := Some(score));
    if Finalizes(score.totalScore, s.tryCount) then t
    else t.(resultOpen := true)
  }

  /** The record `saveResult` submits for a new score, if it is called. */
  function SaveRequestFor(s: Session, items: seq<SpeakItem>, score: ScoreResult): Option<SpeakUserAnswer>
    requires InRange(s, items)
  {
    if Finalizes(score.totalScore, s.tryCount) then
      var item := items[s.quizIndex];
      Some(SpeakUserAnswer(items[0].challengeNumber, item.page, item.sequence, item.quizNo,
                           item.sentence, score.totalScore, score, IsLastQuiz(items, s.quizIndex)))
    else None
  }

  /** The rest of `saveResult` once the service answers: only `result === 0`
      opens the result view. */
  function SaveAcknowledged(s: Session, result: int): Session {
    if result == 0 then s.(resultOpen := true) else s
  }

  /** `changeRecordResult`, called by the result view when it closes. */
  function ChangeRecordResult(s: Session, open: bool): Session {
    s.(resultOpen := open)
  }

  /** The effect on `isResultRecord`: once the result view is closed, a final
      outcome moves to the next index (or to the story view after the last
      item), any other outcome counts one more try. */
  function ResultRecordEffect(s: Session, items: seq<SpeakItem>): Session {
    if s.score.Some? && !s.resultOpen then
      if Finalizes(s.score.value.totalScore, s.tryCount) then
        if IsLastQuiz(items, s.quizIndex) then s.(view := Story)
        else s.(quizIndex := s.quizIndex + 1)
      else s.(tryCount := s.tryCount + 1)
    else s
  }

  /** The page's effect on `quizIndex`: play the new item, forget the score,
      reset the tries, release the busy flag. */
  function QuizIndexEffect(s: Session, items: seq<SpeakItem>): Session
    requires InRange(s, items)
  {
    var item := items[s.quizIndex];
    s.(player := SetPageSeq(s.player, item.page, item.sequence),
       score := None, tryCount := 0, isWorking := false)
  }

  /** The effect on `tryCount`. */
  function TryCountEffect(s: Session): Session {
    if s.tryCount >= MaxTries then s.(quizIndex := s.quizIndex + 1)
    else s.(bar := Idle)
  }

  /** The effect on `playBarState`. */
  function PlayBarStateEffect(s: Session): Session {
    if s.bar == Idle then s.(isWorking := false) else s
  }

  // ---------------------------------------------------------------------
  // Transitions of the audio hook

  /** The hook's effect on `quizIndex`: skip a page-turn marker. */
  function SkipMarkerEffect(s: Session, items: seq<SpeakItem>): Session
    requires InRange(s, items)
  {
    var item := items[s.quizIndex];
    if item.sequence == PageTurnSequence then s.(quizIndex := s.quizIndex + 1)
    else s.(player := SetPageSeq(s.player, item.page, item.sequence))
  }

  function CanPlayThrough(s: Session): Session {
    s.(player := s.player.(playState := Playing), bar := PlayingSentence)
  }

  function Ended(s: Session): Session {
    s.(player := s.player.(playState := NotPlaying), bar := Idle)
  }

  function PageSeqEffect(s: Session, items: seq<SpeakItem>): Session {
    s.(player := AutoPlay(s.player, items))
  }

  // ---------------------------------------------------------------------
  // Runs of events

  /** Everything that can happen to a session: user actions, callbacks of
      the recorder, the service and the player, and effect runs. */
  datatype Event =
    | PlayPressed
    | RecordPressed
    | RecorderReported(state: PlayBarState)
    | ScoreArrived(score: ScoreResult)
    | SaveAnswered(result: int)
    | RecordResultSet(open: bool)
    | RecordResultChanged
    | QuizIndexChanged
    | TryCountChanged
    | PlayBarChanged
    | HookQuizIndexChanged
    | AudioReady
    | AudioEnded
    | PageSeqChanged

  /** Events that read `speakData[quizIndex]` need the index in range (out of
      range, the source fails with a TypeError). */
  predicate Enabled(s: Session, items: seq<SpeakItem>, e: Event) {
    (e.RecordPressed? || e.ScoreArrived? || e.QuizIndexChanged? || e.HookQuizIndexChanged?) ==> InRange(s, items)
  }

  function Step(s: Session, items: seq<SpeakItem>, e: Event): Session
    requires Enabled(s, items, e)
  {
    match e
    case PlayPressed => PlaySentence(s, items)
    case RecordPressed => StartRecord(s)
    case RecorderReported(state) => ChangePlayBarState(s, state)
    case ScoreArrived(score) => ChangeSentenceScore(s, score)
    case SaveAnswered(result) => SaveAcknowledged(s, result)
    case RecordResultSet(open) => ChangeRecordResult(s, open)
    case RecordResultChanged => ResultRecordEffect(s, items)
    case QuizIndexChanged => QuizIndexEffect(s, items)
    case TryCountChanged => TryCountEffect(s)
    case PlayBarChanged => PlayBarStateEffect(s)
    case HookQuizIndexChanged => SkipMarkerEffect(s, items)
    case AudioReady => CanPlayThrough(s)
    case AudioEnded => Ended(s)
    case PageSeqChanged => PageSeqEffect(s, items)
  }

  /** Every event of the run is enabled when it happens. */
  predicate RunDefined(s: Session, items: seq<SpeakItem>, events: seq<Event>)
    decreases |events|
  {
    |events| == 0 ||
    (Enabled(s, items, events[0]) && RunDefined(Step(s, items, events[0]), items, events[1..]))
  }

  function Run(s: Session, items: seq<SpeakItem>, events: seq<Event>): Session
    requires RunDefined(s, items, events)
    decreases |events|
  {
    if |events| == 0 then s
    else Run(Step(s, items, events[0]), items, events[1..])
  }

  /** The session right after mounting on item `quizIndex`. */
  function Initial(items: seq<SpeakItem>, quizIndex: int): Session
    requires 0 <= quizIndex < |items|
  {
    Session(0, quizIndex, Idle, false, None, false, Speaking,
            Player(NotPlaying, PageSeq(items[quizIndex].page, items[quizIndex].sequence), "", 0.0))
  }

  /** The try count stays within 0 .. MaxTries - 1. */
  predicate TryBound(s: Session) {
    0 <= s.tryCount < MaxTries
  }

  // ---------------------------------------------------------------------
  // Properties

  /** At most one action at a time: play and record do nothing while busy. */
  lemma BusyFlagBlocksActions(s: Session, items: seq<SpeakItem>)
    requires InRange(s, items)
    requires s.isWorking
    ensures PlaySentence(s, items) == s
    ensures StartRecord(s) == s
    ensures RecordRequestFor(s, items) == None
  {
  }

  /** When idle, play and record take the busy flag; play shows the
      play-sentence bar; record stops the player BEFORE handing the current
      item's sentence and sound to the recorder. */
  lemma ActionsTakeBusyFlag(s: Session, items: seq<SpeakItem>)
    requires InRange(s, items)
    requires !s.isWorking
    ensures PlaySentence(s, items).isWorking && PlaySentence(s, items).bar == PlayingSentence
    ensures StartRecord(s).isWorking
    ensures StartRecord(s).player.src == "" && StartRecord(s).player.currentTime == 0.0
    ensures StartRecord(s).player.playState == NotPlaying
    ensures RecordRequestFor(s, items) ==
      Some(RecordRequest(items[s.quizIndex].sentence, items[s.quizIndex].soundPath))
  {
  }

  /** A new score is saved iff it passes (>= 70, inclusive) or this is the
      last try; the saved record carries the score, the current item and
      `isLastQuiz`. Without a save the result view opens at once; with one it
      stays as it was until the service answers. */
  lemma ScoreDecision(s: Session, items: seq<SpeakItem>, score: ScoreResult)
    requires InRange(s, items)
    ensures SaveRequestFor(s, items, score).Some? <==>
      score.totalScore >= 70.0 || s.tryCount + 1 >= 3
    ensures ChangeSentenceScore(s, score).score == Some(score)
    ensures SaveRequestFor(s, items, score).None? ==> ChangeSentenceScore(s, score).resultOpen
    ensures SaveRequestFor(s, items, score).Some? ==>
      var r := SaveRequestFor(s, items, score).value;
      && ChangeSentenceScore(s, score).resultOpen == s.resultOpen
      && r.scoreOverall == score.totalScore && r.words == score
      && r.page == items[s.quizIndex].page && r.sequence == items[s.quizIndex].sequence
      && (r.isLastQuiz <==> forall i :: 0 <= i < |items| && s.quizIndex < i ==> items[i].sentence.None?)
  {
    IsLastQuizIff(items, s.quizIndex);
  }

  /** The service's answer: `result === 0` opens the result view, anything
      else leaves the session exactly as it was. */
  lemma SaveAnswerGatesResultView(s: Session, result: int)
    ensures result == 0 ==> SaveAcknowledged(s, result).resultOpen
    ensures result != 0 ==> SaveAcknowledged(s, result) == s
    ensures SaveAcknowledged(s, result).(resultOpen := s.resultOpen) == s
  {
  }

  /** Closing the result view: a final outcome moves on (to the story view
      exactly when no later item has a sentence, else to `quizIndex + 1`)
      without touching the tries; otherwise only the try count grows. */
  lemma CloseResultOutcome(s: Session, items: seq<SpeakItem>)
    requires s.score.Some?
    ensures var t := ResultRecordEffect(ChangeRecordResult(s, false), items);
      var noLater := forall i :: 0 <= i < |items| && s.quizIndex < i ==> items[i].sentence.None?;
      if Finalizes(s.score.value.totalScore, s.tryCount) then
        && t.tryCount == s.tryCount
        && (noLater ==> t.view == Story && t.quizIndex == s.quizIndex)
        && (!noLater ==> t.view == s.view && t.quizIndex == s.quizIndex + 1)
      else
        t.tryCount == s.tryCount + 1 && t.quizIndex == s.quizIndex && t.view == s.view
  {
    IsLastQuizIff(items, s.quizIndex);
  }

  /** A new quiz index clears the score, resets the tries, releases the busy
      flag and points the player at the new item. */
  lemma QuizIndexChangeResets(s: Session, items: seq<SpeakItem>)
    requires InRange(s, items)
    ensures var t := QuizIndexEffect(s, items);
      && t.score == None && t.tryCount == 0 && !t.isWorking
      && t.player.pageSeq == PageSeq(items[s.quizIndex].page, items[s.quizIndex].sequence)
      && t.quizIndex == s.quizIndex && t.bar == s.bar && t.view == s.view
  {
  }

  /** The busy flag is released when the bar returns to `''`, and only then. */
  lemma IdleBarReleasesBusyFlag(s: Session)
    ensures PlayBarStateEffect(s).isWorking <==> s.isWorking && s.bar != Idle
  {
  }

  /** Every transition keeps the try count within its bound. */
  lemma StepKeepsTryBound(s: Session, items: seq<SpeakItem>, e: Event)
    requires Enabled(s, items, e)
    requires TryBound(s)
    ensures TryBound(Step(s, items, e))
  {
  }

  /** Hence in every run, however its events interleave, the try count
      never reaches 3. */
  lemma {:induction false} RunKeepsTryBound(s: Session, items: seq<SpeakItem>, events: seq<Event>)
    requires RunDefined(s, items, events)
    requires TryBound(s)
    ensures TryBound(Run(s, items, events))
    decreases |events|
  {
    if |events| > 0 {
      StepKeepsTryBound(s, items, events[0]);
      RunKeepsTryBound(Step(s, items, events[0]), items, events[1..]);
    }
  }

  /** So the `tryCount >= 3` branch of the try-count effect is dead code in
      every run from a freshly mounted session: the effect only resets the
      bar. */
  lemma TryCountEffectNeverAdvances(items: seq<SpeakItem>, quizIndex: int, events: seq<Event>)
    requires 0 <= quizIndex < |items|
    requires RunDefined(Initial(items, quizIndex), items, events)
    ensures var t := Run(Initial(items, quizIndex), items, events);
      TryCountEffect(t) == t.(bar := Idle)
  {
    RunKeepsTryBound(Initial(items, quizIndex), items, events);
  }

  // ---------------------------------------------------------------------
  // Scenarios in the order the page runs them

  /** One failed, non-final attempt: the score arrives, the result view opens,
      the learner closes it, the tries grow and the bar resets. The play-bar
      effect runs only if the reset actually changed the bar. */
  function RetryCycle(s: Session, items: seq<SpeakItem>, score: ScoreResult): Session {
    var scored := ChangeSentenceScore(s, score);
    var closed := ResultRecordEffect(ChangeRecordResult(scored, false), items);
    var reset := TryCountEffect(closed);
    if reset.bar != closed.bar then PlayBarStateEffect(reset) else reset
  }

  /** After a failed attempt with tries left, nothing is saved and the cursor
      stays on the same item. The busy flag is released when the bar was not
      idle (the recorder's bar is up while it records); when it was already
      idle, the reset does not re-run the play-bar effect and the flag stays
      as it was. */
  lemma FailedAttemptRetries(s: Session, items: seq<SpeakItem>, score: ScoreResult)
    requires InRange(s, items)
    requires score.totalScore < PassScore
    requires TryBound(s) && s.tryCount + 1 < MaxTries
    ensures SaveRequestFor(s, items, score) == None
    ensures var t := RetryCycle(s, items, score);
      && t.tryCount == s.tryCount + 1 && t.quizIndex == s.quizIndex
      && t.isWorking == (s.isWorking && s.bar == Idle)
      && t.bar == Idle && !t.resultOpen && t.view == s.view
  {
  }

  /** Three failing scores on one item (e.g. 40, 55, 30): the first two only
      retry, the third is saved regardless of its score. */
  lemma ThirdFailureIsSaved(s: Session, items: seq<SpeakItem>, a: ScoreResult, b: ScoreResult, c: ScoreResult)
    requires InRange(s, items)
    requires s.tryCount == 0
    requires a.totalScore < PassScore && b.totalScore < PassScore && c.totalScore < PassScore
    ensures SaveRequestFor(s, items, a) == None
    ensures SaveRequestFor(RetryCycle(s, items, a), items, b) == None
    ensures var s2 := RetryCycle(RetryCycle(s, items, a), items, b);
      && s2.quizIndex == s.quizIndex && s2.tryCount == 2
      && SaveRequestFor(s2, items, c).Some?
      && SaveRequestFor(s2, items, c).value.scoreOverall == c.totalScore
  {
    FailedAttemptRetries(s, items, a);
    FailedAttemptRetries(RetryCycle(s, items, a), items, b);
  }

  /** A score of exactly 70 passes on the first try and is saved. */
  lemma SeventyPasses(s: Session, items: seq<SpeakItem>, score: ScoreResult)
    requires InRange(s, items)
    requires s.tryCount == 0 && score.totalScore == 70.0
    ensures SaveRequestFor(s, items, score).Some?
    ensures !ChangeSentenceScore(s, score).resultOpen || s.resultOpen
  {
  }

  /** In the commit that lands on a page-turn marker, both quiz-index effects
      read the marker's index: the page's effect points the player at the
      marker's (page, 999) and the hook's effect moves the index on by one. */
  lemma MarkerCommit(s: Session, items: seq<SpeakItem>)
    requires InRange(s, items)
    requires items[s.quizIndex].sequence == PageTurnSequence
    ensures var t := SkipMarkerEffect(QuizIndexEffect(s, items), items);
      && t.quizIndex == s.quizIndex + 1
      && t.player.pageSeq == PageSeq(items[s.quizIndex].page, PageTurnSequence)
      && t.tryCount == 0 && t.score == None && !t.isWorking
  {
  }

  /** The three-item example: a sentence, a page-turn marker, a sentence.
      Passing the first item advances to index 1 (the page advances by one,
      it does not search), and the marker's effect then moves on to index 2,
      which is the last quiz. */
  lemma MarkerIsSkippedAfterFinalize(s: Session, score: ScoreResult)
    requires s.quizIndex == 0 && s.tryCount == 0 && !s.resultOpen && s.view == Speaking
    requires score.totalScore >= PassScore
    ensures var items := [
        SpeakItem(1, 1, Some("Hi"), "hi.mp3", "Hi", "hi.json", 1, 7),
        SpeakItem(1, PageTurnSequence, None, "", "", "", 0, 7),
        SpeakItem(2, 1, Some("Bye"), "bye.mp3", "Bye", "bye.json", 2, 7)];
      var saved := SaveAcknowledged(ChangeSentenceScore(s, score), 0);
      var closed := ResultRecordEffect(ChangeRecordResult(saved, false), items);
      var marker := QuizIndexEffect(closed, items);
      && closed.quizIndex == 1
      && SkipMarkerEffect(marker, items).quizIndex == 2
      && IsLastQuiz(items, 2) && !IsLastQuiz(items, 0)
  {
    var items := [
        SpeakItem(1, 1, Some("Hi"), "hi.mp3", "Hi", "hi.json", 1, 7),
        SpeakItem(1, PageTurnSequence, None, "", "", "", 0, 7),
        SpeakItem(2, 1, Some("Bye"), "bye.mp3", "Bye", "bye.json", 2, 7)];
    IsLastQuizIff(items, 0);
    IsLastQuizIff(items, 2);
    assert items[2].sentence.Some?;
  }
}
