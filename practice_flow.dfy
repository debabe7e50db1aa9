/**
 * The third vocabulary practice: the learner hears a word and types it a
 * fixed number of times. `checkAnswer` is a state machine over the word
 * number, the try count, the input, the busy flag and retry mode; saves are
 * answered by the server with a result code.
 */
module PracticeFlow {
  import opened SpeakTypes

  datatype Question = Question(text: string, sound: string)

  datatype QuizWord = QuizWord(quizId: int, quizNo: int, question: Question)

  /** The practice's data: the words, how many times each must be typed
      (`QuizAnswerCount`), and the two switches. */
  datatype PracticeData = PracticeData(
    quiz: seq<QuizWord>,
    answerCount: int,
    isEnabledTyping: bool,
    isSkipAvailable: bool)

  /** One row of the score board. */
  datatype ScoreEntry = ScoreEntry(quizNo: int, maxCount: int, answerCount: int, ox: bool)

  /** The server's (or the synthetic) answer to a save; `result` is the
      numeric value of the result string. */
  datatype SaveResponse = SaveResponse(result: int, message: string)

  /** The note left in the app context that ends the study. */
  datatype FinishNote = FinishNote(id: int, cause: string)

  datatype AudioCommand = PlayWordAudio(sound: string) | StopWordAudio

  /** The record a save sends. */
  datatype UserAnswer = UserAnswer(
    quizId: int,
    quizNo: int,
    currentQuizNo: int,
    correct: string,
    selectedAnswer: string,
    tryCount: int,
    maxQuizCount: int,
    quizLength: int,
    isCorrect: bool,
    answerData: ScoreEntry,
    isFinishStudy: bool)

  /** The page's state: the intro flag, the 1-based word number, the try
      count, the input, the busy flag, retry mode, the result view, the score
      board, the app's finish note and the audio commands issued so far. */
  datatype Practice = Practice(
    intro: bool,
    quizNo: int,
    tryCount: int,
    inputVal: string,
    isWorking: bool,
    isRetry: bool,
    resultShow: bool,
    board: seq<ScoreEntry>,
    finish: Option<FinishNote>,
    audio: seq<AudioCommand>)

  /** The state on mount: word 1, no tries, busy until the intro closes. */
  function Initial(): Practice {
    Practice(true, 1, 0, "", true, false, false, [], None, [])
  }

  predicate OnWord(s: Practice, d: PracticeData) {
    1 <= s.quizNo <= |d.quiz|
  }

  function WordAt(d: PracticeData, quizNo: int): QuizWord
    requires 1 <= quizNo <= |d.quiz|
  {
    d.quiz[quizNo - 1]
  }

  /** `playWord`: play the current word when the audio is idle, otherwise
      stop it. `playIdle` is the `playState === ''` the handler sees. */
  function PlayWord(s: Practice, d: PracticeData, playIdle: bool): (t: Practice)
    requires playIdle ==> OnWord(s, d)
    ensures |t.audio| == |s.audio| + 1 && t.audio[..|s.audio|] == s.audio
    ensures playIdle ==> t.audio[|s.audio|] == PlayWordAudio(d.quiz[s.quizNo - 1].question.sound)
    ensures !playIdle ==> t.audio[|s.audio|] == StopWordAudio
    ensures t.(audio := s.audio) == s
  {
    s.(audio := s.audio + [if playIdle then PlayWordAudio(WordAt(d, s.quizNo).question.sound) else StopWordAudio])
  }

  function ChangeInputVal(s: Practice, value: string): Practice {
    s.(inputVal := value)
  }

  /** The score-board row for the current try. */
  function ScoreFor(d: PracticeData, quizNo: int, tryCount: int, ox: bool): ScoreEntry {
    ScoreEntry(quizNo, d.answerCount, tryCount + 1, ox)
  }

  /** The answer in retry mode, where nothing is saved: always result 0, with
      message 'finish' on the final try of the last word. */
  function RetryResponse(d: PracticeData, quizNo: int, tryCount: int): (r: SaveResponse)
    ensures r.result == 0
    ensures r.message == "finish" <==> tryCount + 1 >= d.answerCount && quizNo + 1 > |d.quiz|
    ensures r.message != "finish" ==> r.message == ""
  {
    if tryCount + 1 >= d.answerCount then
      if quizNo + 1 > |d.quiz| then SaveResponse(0, "finish") else SaveResponse(0, "")
    else SaveResponse(0, "")
  }

  /** The response `checkAnswer` acts on: the synthetic one in retry mode,
      the server's otherwise. */
  function Response(s: Practice, d: PracticeData, server: SaveResponse): SaveResponse {
    if s.isRetry then RetryResponse(d, s.quizNo, s.tryCount) else server
  }

  /** The record built for a save. `lastStep` is the study's last step. */
  function AnswerFor(d: PracticeData, quizNo: int, tryCount: int, inputVal: string, isCorrect: bool, lastStep: string): UserAnswer
    requires 1 <= quizNo <= |d.quiz|
  {
    var w := WordAt(d, quizNo);
    UserAnswer(w.quizId, w.quizNo, quizNo, w.question.text, inputVal, tryCount + 1, d.answerCount,
               |d.quiz|, isCorrect, ScoreFor(d, quizNo, tryCount, isCorrect), lastStep == "2P")
  }

  /** The branch `checkAnswer` takes. `skipType` is `""` when the argument
      is absent; both are falsy. */
  datatype Branch = Ignored | TypedCorrect | Skipped | Cleared | Untyped

  function BranchOf(s: Practice, d: PracticeData, skipType: string): Branch
    requires !s.isWorking ==> OnWord(s, d)
  {
    if s.isWorking then Ignored
    else if d.isEnabledTyping then
      if WordAt(d, s.quizNo).question.text == s.inputVal then TypedCorrect
      else if d.isSkipAvailable && skipType == "" then Skipped
      else Cleared
    else Untyped
  }

  /** The advance rule: past the last word the result view opens, otherwise
      the next word comes. */
  function Advance(s: Practice, d: PracticeData): Practice {
    if s.quizNo + 1 > |d.quiz| then s.(resultShow := true) else s.(quizNo := s.quizNo + 1)
  }

  /** The save a check sends, if any. */
  function SaveRequest(s: Practice, d: PracticeData, skipType: string, lastStep: string): Option<UserAnswer>
    requires !s.isWorking ==> OnWord(s, d)
  {
    match BranchOf(s, d, skipType)
    case Ignored => None
    case Cleared => None
    case TypedCorrect => if s.isRetry then None else Some(AnswerFor(d, s.quizNo, s.tryCount, s.inputVal, true, lastStep))
    case Skipped => if s.isRetry then None else Some(AnswerFor(d, s.quizNo, s.tryCount, s.inputVal, false, lastStep))
    case Untyped => if s.isRetry then None else Some(AnswerFor(d, s.quizNo, s.tryCount, s.inputVal, true, lastStep))
  }

  /** A correct typed answer, once the busy flag is taken (`b`) and the
      response `res` is known. */
  function TypedCorrectOutcome(b: Practice, d: PracticeData, res: SaveResponse, playIdle: bool): Practice
    requires playIdle ==> OnWord(b, d)
  {
    if res.result != 0 then b
    else
      var scored := ScoreTypedTry(b, d, res);
      if b.tryCount + 1 >= d.answerCount then Advance(scored, d)
      else PlayWord(scored.(inputVal := ""), d, playIdle).(isWorking := false)
  }

  /** An acknowledged correct try: the finish note (when the response
      carries a message), the board row and one more try. */
  function ScoreTypedTry(b: Practice, d: PracticeData, res: SaveResponse): Practice {
    b.(finish := if res.message != "" then Some(FinishNote(res.result, res.message)) else b.finish,
       board := b.board + [ScoreFor(d, b.quizNo, b.tryCount, true)],
       tryCount := b.tryCount + 1)
  }

  /** A wrong typed answer that may be skipped. */
  function SkippedOutcome(b: Practice, d: PracticeData, res: SaveResponse): Practice {
    var stopped := b.(audio := b.audio + [StopWordAudio]);
    if res.result != 0 then stopped
    else Advance(stopped.(board := b.board + [ScoreFor(d, b.quizNo, b.tryCount, false)]), d)
  }

  /** Any check with typing off. */
  function UntypedOutcome(b: Practice, d: PracticeData, res: SaveResponse): Practice {
    if res.result != 0 then b
    else Advance(b.(board := b.board + [ScoreFor(d, b.quizNo, b.tryCount, true)]), d)
  }

  /** `checkAnswer`. A thrown save is treated like a nonzero result. */
  function CheckAnswer(s: Practice, d: PracticeData, skipType: string, server: SaveResponse, playIdle: bool): Practice
    requires !s.isWorking ==> OnWord(s, d)
  {
    var busy := s.(isWorking := true);
    var res := Response(s, d, server);
    match BranchOf(s, d, skipType)
    case Ignored => s
    case Cleared => busy.(inputVal := "", isWorking := false)
    case TypedCorrect => TypedCorrectOutcome(busy, d, res, playIdle)
    case Skipped => SkippedOutcome(busy, d, res)
    case Untyped => UntypedOutcome(busy, d, res)
  }

  /** The effect on the intro flag: once the intro is gone, play the word and
      release the busy flag. */
  function CloseIntro(s: Practice, d: PracticeData, playIdle: bool): Practice
    requires playIdle ==> OnWord(s, d)
  {
    if !s.intro then s
    else PlayWord(s.(intro := false), d, playIdle).(isWorking := false)
  }

  /** The effect on the loaded data: resume at `currentQuizNo` with `tryCnt`
      tries and the recorded board, or show the result when every word is
      done. Both numbers come from a helper that is not part of this model. */
  function Load(s: Practice, d: PracticeData, currentQuizNo: int, tryCnt: int, recorded: seq<ScoreEntry>): Practice {
    if |d.quiz| < currentQuizNo then s.(resultShow := true)
    else s.(board := if |recorded| > 0 then recorded else s.board, tryCount := tryCnt, quizNo := currentQuizNo)
  }

  /** The effect on `quizNo`: a fresh word starts with an empty input and no
      tries, its audio, and the busy flag released. */
  function QuizNoEffect(s: Practice, d: PracticeData, playIdle: bool): Practice
    requires playIdle ==> OnWord(s, d)
  {
    if s.intro then s
    else PlayWord(s.(inputVal := "", tryCount := 0), d, playIdle).(isWorking := false)
  }

  function ResultShowEffect(s: Practice): Practice {
    if s.resultShow then s.(isRetry := false) else s
  }

  function ChangeRetry(s: Practice, state: bool): Practice {
    s.(isRetry := state)
  }

  /** The effect on `isRetry` as written: empty the board, go back to word 1
      and hide the result view. It relies on the `quizNo` effect to reset
      the word. */
  function RetryEffect(s: Practice): Practice {
    if s.isRetry then s.(board := [], quizNo := 1, resultShow := false) else s
  }

  /** The retry as it commits: the `quizNo` effect runs only if the retry
      effect changed `quizNo`. */
  function RetryCommit(s: Practice, d: PracticeData, playIdle: bool): Practice
    requires playIdle ==> 1 <= |d.quiz|
  {
    var t := RetryEffect(s);
    if t.quizNo != s.quizNo then QuizNoEffect(t, d, playIdle) else t
  }

  /** The retry with the reset of the first word always applied, whether or
      not `quizNo` was already 1. */
  function RetryRestart(s: Practice, d: PracticeData, playIdle: bool): Practice
    requires playIdle ==> 1 <= |d.quiz|
  {
    if s.isRetry then QuizNoEffect(s.(board := [], quizNo := 1, resultShow := false), d, playIdle) else s
  }

  // ---------------------------------------------------------------------
  // Properties of one check

  /** A check while busy changes nothing and saves nothing. */
  lemma BusyCheckIsIgnored(s: Practice, d: PracticeData, skipType: string, server: SaveResponse, playIdle: bool, lastStep: string)
    requires s.isWorking
    ensures CheckAnswer(s, d, skipType, server, playIdle) == s
    ensures SaveRequest(s, d, skipType, lastStep) == None
  {
  }

  /** With typing on, correctness is exact equality of the word's text and
      the input, and a sent record carries that verdict. */
  lemma TypedVerdictIsExactMatch(s: Practice, d: PracticeData, skipType: string, lastStep: string)
    requires !s.isWorking && OnWord(s, d) && d.isEnabledTyping
    ensures BranchOf(s, d, skipType) == TypedCorrect <==> d.quiz[s.quizNo - 1].question.text == s.inputVal
    ensures SaveRequest(s, d, skipType, lastStep).Some? ==>
      SaveRequest(s, d, skipType, lastStep).value.isCorrect == (d.quiz[s.quizNo - 1].question.text == s.inputVal)
  {
  }

  /** A correct typed answer acknowledged with 0 counts one more try and
      records it; the word is finished when the tries reach the answer
      count, otherwise it is typed again from an empty input. */
  lemma TypedCorrectTryRule(s: Practice, d: PracticeData, skipType: string, server: SaveResponse, playIdle: bool)
    requires !s.isWorking && OnWord(s, d)
    requires BranchOf(s, d, skipType) == TypedCorrect && Response(s, d, server).result == 0
    ensures var t := CheckAnswer(s, d, skipType, server, playIdle);
      t.tryCount == s.tryCount + 1 &&
      t.board == s.board + [ScoreEntry(s.quizNo, d.answerCount, s.tryCount + 1, true)] &&
      (s.tryCount + 1 >= d.answerCount ==>
        (t.isWorking && t.inputVal == s.inputVal &&
         (if s.quizNo < |d.quiz| then t.quizNo == s.quizNo + 1 && t.resultShow == s.resultShow
          else t.quizNo == s.quizNo && t.resultShow))) &&
      (s.tryCount + 1 < d.answerCount ==>
        t.quizNo == s.quizNo && t.inputVal == "" && !t.isWorking && t.resultShow == s.resultShow &&
        t.audio == s.audio + [if playIdle then PlayWordAudio(d.quiz[s.quizNo - 1].question.sound) else StopWordAudio])
  {
  }

  /** A wrong typed answer with skipping allowed stops the audio and, once
      acknowledged, records a miss and moves on whatever the try count. */
  lemma SkipRule(s: Practice, d: PracticeData, skipType: string, server: SaveResponse, playIdle: bool)
    requires !s.isWorking && OnWord(s, d)
    requires BranchOf(s, d, skipType) == Skipped
    ensures var t := CheckAnswer(s, d, skipType, server, playIdle);
      t.audio == s.audio + [StopWordAudio] && t.tryCount == s.tryCount &&
      (Response(s, d, server).result == 0 ==>
        t.board == s.board + [ScoreEntry(s.quizNo, d.answerCount, s.tryCount + 1, false)] &&
        (if s.quizNo < |d.quiz| then t.quizNo == s.quizNo + 1 else t.quizNo == s.quizNo && t.resultShow))
  {
  }

  /** A wrong typed answer that cannot be skipped only clears the input and
      releases the busy flag. */
  lemma NoSkipOnlyClears(s: Practice, d: PracticeData, skipType: string, server: SaveResponse, playIdle: bool, lastStep: string)
    requires !s.isWorking && OnWord(s, d) && d.isEnabledTyping
    requires d.quiz[s.quizNo - 1].question.text != s.inputVal
    requires !d.isSkipAvailable || skipType != ""
    ensures CheckAnswer(s, d, skipType, server, playIdle) == s.(inputVal := "")
    ensures SaveRequest(s, d, skipType, lastStep) == None
  {
  }

  /** With typing off every check is recorded as correct and, once
      acknowledged, moves on. */
  lemma UntypedIsAlwaysCorrect(s: Practice, d: PracticeData, skipType: string, server: SaveResponse, playIdle: bool, lastStep: string)
    requires !s.isWorking && OnWord(s, d) && !d.isEnabledTyping
    ensures SaveRequest(s, d, skipType, lastStep).Some? ==> SaveRequest(s, d, skipType, lastStep).value.isCorrect
    ensures var t := CheckAnswer(s, d, skipType, server, playIdle);
      Response(s, d, server).result == 0 ==>
        t.board == s.board + [ScoreEntry(s.quizNo, d.answerCount, s.tryCount + 1, true)] &&
        (if s.quizNo < |d.quiz| then t.quizNo == s.quizNo + 1 else t.resultShow)
  {
  }

  /** Retry mode sends nothing; outside it, every branch that reaches the
      save sends one. Only a correct typed answer can leave a finish note,
      and in retry mode only on the final try of the last word. */
  lemma RetryModeNeverSaves(s: Practice, d: PracticeData, skipType: string, server: SaveResponse, playIdle: bool, lastStep: string)
    requires !s.isWorking ==> OnWord(s, d)
    ensures s.isRetry ==> SaveRequest(s, d, skipType, lastStep) == None
    ensures !s.isRetry && BranchOf(s, d, skipType) in {TypedCorrect, Skipped, Untyped} ==>
      SaveRequest(s, d, skipType, lastStep).Some?
    ensures var t := CheckAnswer(s, d, skipType, server, playIdle);
      t.finish != s.finish ==>
        (BranchOf(s, d, skipType) == TypedCorrect &&
         (s.isRetry ==>
           (t.finish == Some(FinishNote(0, "finish")) &&
            s.tryCount + 1 >= d.answerCount && s.quizNo == |d.quiz|)))
  {
  }

  /** A check releases the busy flag exactly on a cleared input or on a
      correct try that does not finish the word; every other outcome, a
      rejected save included, leaves the page busy, so further checks are
      ignored until the next word. */
  lemma BusyReleaseRule(s: Practice, d: PracticeData, skipType: string, server: SaveResponse, playIdle: bool)
    requires !s.isWorking && OnWord(s, d)
    ensures var t := CheckAnswer(s, d, skipType, server, playIdle);
      var b := BranchOf(s, d, skipType);
      !t.isWorking <==>
        (b == Cleared ||
         (b == TypedCorrect && Response(s, d, server).result == 0 && s.tryCount + 1 < d.answerCount))
    ensures var t := CheckAnswer(s, d, skipType, server, playIdle);
      Response(s, d, server).result != 0 && BranchOf(s, d, skipType) != Cleared ==>
        t.isWorking && t.quizNo == s.quizNo && t.tryCount == s.tryCount && t.board == s.board &&
        t.resultShow == s.resultShow
  {
  }

  /** A check never goes back and never skips a word: it stays, moves to the
      next existing word, or opens the result view on the last one. */
  lemma CheckMovesForwardByOne(s: Practice, d: PracticeData, skipType: string, server: SaveResponse, playIdle: bool)
    requires !s.isWorking ==> OnWord(s, d)
    ensures var t := CheckAnswer(s, d, skipType, server, playIdle);
      t.quizNo == s.quizNo || (t.quizNo == s.quizNo + 1 && t.quizNo <= |d.quiz|)
    ensures var t := CheckAnswer(s, d, skipType, server, playIdle);
      t.resultShow != s.resultShow ==> t.resultShow && s.quizNo == |d.quiz| && t.quizNo == s.quizNo
  {
    match BranchOf(s, d, skipType)
    case Ignored =>
    case Cleared =>
    case TypedCorrect =>
    case Skipped =>
    case Untyped =>
  }

  /** A new word resets the input and the tries and releases the busy flag. */
  lemma QuizNoEffectResets(s: Practice, d: PracticeData, playIdle: bool)
    requires playIdle ==> OnWord(s, d)
    requires !s.intro
    ensures var t := QuizNoEffect(s, d, playIdle);
      t.inputVal == "" && t.tryCount == 0 && !t.isWorking && t.quizNo == s.quizNo &&
      t.board == s.board && t.resultShow == s.resultShow && |t.audio| == |s.audio| + 1
  {
  }

  // ---------------------------------------------------------------------
  // Retry with a single word

  /** As written: retrying from word 1 never runs the `quizNo` effect, so a
      busy page stays busy and keeps its old tries and input. */
  lemma RetryFromFirstWordStaysBusy(s: Practice, d: PracticeData, playIdle: bool)
    requires playIdle ==> 1 <= |d.quiz|
    requires s.isRetry && s.quizNo == 1 && s.isWorking
    ensures var t := RetryCommit(s, d, playIdle);
      t.isWorking && !t.resultShow && t.tryCount == s.tryCount && t.inputVal == s.inputVal
  {
  }

  /** A one-word practice answered once reaches that state: after the retry
      the quiz is shown again but every check is ignored. */
  lemma SingleWordRetryIsStuck(skipType: string, server: SaveResponse, playIdle: bool)
    ensures var d := PracticeData([QuizWord(7, 1, Question("cat", "cat.mp3"))], 1, true, false);
      var answered := CheckAnswer(ChangeInputVal(CloseIntro(Initial(), d, true), "cat"), d, "", SaveResponse(0, ""), true);
      var t := RetryCommit(ChangeRetry(ResultShowEffect(answered), true), d, true);
      answered.resultShow && !t.resultShow && t.isWorking &&
      CheckAnswer(t, d, skipType, server, playIdle) == t
  {
  }

  /** Corrected: a retry always reopens word 1 ready to be answered. */
  lemma RetryRestartReopens(s: Practice, d: PracticeData, playIdle: bool)
    requires playIdle ==> 1 <= |d.quiz|
    requires s.isRetry && !s.intro
    ensures var t := RetryRestart(s, d, playIdle);
      t.quizNo == 1 && t.tryCount == 0 && t.inputVal == "" && !t.isWorking &&
      !t.resultShow && t.board == [] && t.isRetry
  {
  }

  /** The correction changes nothing when the retry starts from a later word. */
  lemma RetryRestartAgreesElsewhere(s: Practice, d: PracticeData, playIdle: bool)
    requires playIdle ==> 1 <= |d.quiz|
    requires s.quizNo != 1
    ensures RetryRestart(s, d, playIdle) == RetryCommit(s, d, playIdle)
  {
  }

  // ---------------------------------------------------------------------
  // Runs

  datatype Event =
    | IntroClosed(playIdle: bool)
    | Loaded(currentQuizNo: int, tryCnt: int, recorded: seq<ScoreEntry>)
    | Typed(value: string)
    | Checked(skipType: string, server: SaveResponse, playIdle: bool)
    | WordPressed(playIdle: bool)
    | RetryChosen(state: bool)
    | QuizNoChanged(playIdle: bool)
    | RetryChanged(playIdle: bool)
    | ResultShowChanged

  /** The events whose handler reads the current word need one; a resumed
      word number is 1-based. */
  predicate Enabled(s: Practice, d: PracticeData, e: Event) {
    (e.IntroClosed? || e.WordPressed? || e.QuizNoChanged? ==> e.playIdle ==> OnWord(s, d)) &&
    (e.Checked? ==> !s.isWorking ==> OnWord(s, d)) &&
    (e.RetryChanged? ==> e.playIdle ==> 1 <= |d.quiz|) &&
    (e.Loaded? ==> e.currentQuizNo >= 1)
  }

  function Step(s: Practice, d: PracticeData, e: Event): Practice
    requires Enabled(s, d, e)
  {
    match e
    case IntroClosed(playIdle) => CloseIntro(s, d, playIdle)
    case Loaded(c, n, recorded) => Load(s, d, c, n, recorded)
    case Typed(value) => ChangeInputVal(s, value)
    case Checked(skipType, server, playIdle) => CheckAnswer(s, d, skipType, server, playIdle)
    case WordPressed(playIdle) => PlayWord(s, d, playIdle)
    case RetryChosen(state) => ChangeRetry(s, state)
    case QuizNoChanged(playIdle) => QuizNoEffect(s, d, playIdle)
    case RetryChanged(playIdle) => RetryCommit(s, d, playIdle)
    case ResultShowChanged => ResultShowEffect(s)
  }

  predicate RunDefined(s: Practice, d: PracticeData, events: seq<Event>)
    decreases |events|
  {
    |events| == 0 || (Enabled(s, d, events[0]) && RunDefined(Step(s, d, events[0]), d, events[1..]))
  }

  function Run(s: Practice, d: PracticeData, events: seq<Event>): Practice
    requires RunDefined(s, d, events)
    decreases |events|
  {
    if |events| == 0 then s else Run(Step(s, d, events[0]), d, events[1..])
  }

  /** A resumed word number is 1-based. */
  predicate WellFormed(e: Event) {
    e.Loaded? ==> e.currentQuizNo >= 1
  }

  lemma StepKeepsOnWord(s: Practice, d: PracticeData, e: Event)
    requires OnWord(s, d) && WellFormed(e)
    ensures Enabled(s, d, e)
    ensures OnWord(Step(s, d, e), d)
  {
  }

  /** On a practice with at least one word, the word number always names an
      existing word, so no handler ever reads outside the word list. */
  lemma {:induction false} RunStaysOnWord(s: Practice, d: PracticeData, events: seq<Event>)
    requires OnWord(s, d)
    requires forall i :: 0 <= i < |events| ==> WellFormed(events[i])
    ensures RunDefined(s, d, events)
    ensures OnWord(Run(s, d, events), d)
    decreases |events|
  {
    if |events| > 0 {
      StepKeepsOnWord(s, d, events[0]);
      var t := Step(s, d, events[0]);
      assert forall i :: 0 <= i < |events[1..]| ==> WellFormed(events[1..][i]) by {
        forall i | 0 <= i < |events[1..]| ensures WellFormed(events[1..][i]) {
          assert events[1..][i] == events[i + 1];
        }
      }
      RunStaysOnWord(t, d, events[1..]);
    }
  }

  lemma InitialOnWord(d: PracticeData)
    requires 1 <= |d.quiz|
    ensures OnWord(Initial(), d)
  {
  }
}
