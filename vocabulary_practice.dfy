/**
 * The vocabulary-practice page as an object: its state hooks and ref are
 * fields, its handlers and effects are methods, each specified by the
 * transition of the same name on the page's snapshot.
 */
module VocabularyPractice {
  import opened SpeakTypes
  import opened PracticeFlow

  class VocabularyPractice {
    const data: PracticeData
    var intro: bool
    var quizNo: int
    var tryCount: int
    var inputVal: string
    var isWorking: bool
    var isRetry: bool
    var resultShow: bool
    var board: seq<ScoreEntry>
    var finish: Option<FinishNote>
    var audio: seq<AudioCommand>

    ghost function Snapshot(): Practice
      reads this
    {
      Practice(intro, quizNo, tryCount, inputVal, isWorking, isRetry, resultShow, board, finish, audio)
    }

    constructor (data: PracticeData)
      ensures this.data == data && Snapshot() == Initial()
    {
      this.data := data;
      intro := true;
      quizNo := 1;
      tryCount := 0;
      inputVal := "";
      isWorking := true;
      isRetry := false;
      resultShow := false;
      board := [];
      finish := None;
      audio := [];
    }

    method PlayWord(playIdle: bool)
      requires playIdle ==> 1 <= quizNo <= |data.quiz|
      modifies this
      ensures Snapshot() == PracticeFlow.PlayWord(old(Snapshot()), data, playIdle)
    {
      if playIdle {
        audio := audio + [PlayWordAudio(WordAt(data, quizNo).question.sound)];
      } else {
        audio := audio + [StopWordAudio];
      }
    }

    method ChangeInputVal(value: string)
      modifies this
      ensures Snapshot() == PracticeFlow.ChangeInputVal(old(Snapshot()), value)
    {
      inputVal := value;
    }

    method Advance()
      modifies this
      ensures Snapshot() == PracticeFlow.Advance(old(Snapshot()), data)
    {
      if quizNo + 1 > |data.quiz| {
        resultShow := true;
      } else {
        quizNo := quizNo + 1;
      }
    }

    /** `checkAnswer`, given the answer a save would get; it returns the
        record it sends, if any. */
    method CheckAnswer(skipType: string, server: SaveResponse, playIdle: bool, lastStep: string)
      returns (request: Option<UserAnswer>)
      requires !isWorking ==> 1 <= quizNo <= |data.quiz|
      modifies this
      ensures request == SaveRequest(old(Snapshot()), data, skipType, lastStep)
      ensures Snapshot() == PracticeFlow.CheckAnswer(old(Snapshot()), data, skipType, server, playIdle)
    {
      request := None;
      if !isWorking {
        isWorking := true;
        var res := server;
        if isRetry {
          res := RetryResponse(data, quizNo, tryCount);
        }
        if data.isEnabledTyping {
          var isCorrect := WordAt(data, quizNo).question.text == inputVal;
          if isCorrect {
            if !isRetry {
              request := Some(AnswerFor(data, quizNo, tryCount, inputVal, true, lastStep));
            }
            AcceptTyped(res, playIdle);
          } else if data.isSkipAvailable && skipType == "" {
            if !isRetry {
              request := Some(AnswerFor(data, quizNo, tryCount, inputVal, false, lastStep));
            }
            SkipWord(res);
          } else {
            inputVal := "";
            isWorking := false;
          }
        } else {
          if !isRetry {
            request := Some(AnswerFor(data, quizNo, tryCount, inputVal, true, lastStep));
          }
          AcceptUntyped(res);
        }
      }
    }

    method AcceptTyped(res: SaveResponse, playIdle: bool)
      requires playIdle ==> 1 <= quizNo <= |data.quiz|
      modifies this
      ensures Snapshot() == TypedCorrectOutcome(old(Snapshot()), data, res, playIdle)
    {
      if res.result == 0 {
        var tries := tryCount;
        ScoreTry(res);
        if tries + 1 >= data.answerCount {
          Advance();
        } else {
          inputVal := "";
          PlayWord(playIdle);
          isWorking := false;
        }
      }
    }

    method ScoreTry(res: SaveResponse)
      modifies this
      ensures Snapshot() == ScoreTypedTry(old(Snapshot()), data, res)
    {
      if res.message != "" {
        finish := Some(FinishNote(res.result, res.message));
      }
      board := board + [ScoreFor(data, quizNo, tryCount, true)];
      tryCount := tryCount + 1;
    }

    method SkipWord(res: SaveResponse)
      modifies this
      ensures Snapshot() == SkippedOutcome(old(Snapshot()), data, res)
    {
      audio := audio + [StopWordAudio];
      if res.result == 0 {
        board := board + [ScoreFor(data, quizNo, tryCount, false)];
        Advance();
      }
    }

    method AcceptUntyped(res: SaveResponse)
      modifies this
      ensures Snapshot() == UntypedOutcome(old(Snapshot()), data, res)
    {
      if res.result == 0 {
        board := board + [ScoreFor(data, quizNo, tryCount, true)];
        Advance();
      }
    }

    method CloseIntro(playIdle: bool)
      requires playIdle ==> 1 <= quizNo <= |data.quiz|
      modifies this
      ensures Snapshot() == PracticeFlow.CloseIntro(old(Snapshot()), data, playIdle)
    {
      if intro {
        intro := false;
        PlayWord(playIdle);
        isWorking := false;
      }
    }

    method Load(currentQuizNo: int, tryCnt: int, recorded: seq<ScoreEntry>)
      modifies this
      ensures Snapshot() == PracticeFlow.Load(old(Snapshot()), data, currentQuizNo, tryCnt, recorded)
    {
      if |data.quiz| < currentQuizNo {
        resultShow := true;
      } else {
        if |recorded| > 0 {
          board := recorded;
        }
        tryCount := tryCnt;
        quizNo := currentQuizNo;
      }
    }

    method OnQuizNoChanged(playIdle: bool)
      requires playIdle ==> 1 <= quizNo <= |data.quiz|
      modifies this
      ensures Snapshot() == QuizNoEffect(old(Snapshot()), data, playIdle)
    {
      if !intro {
        inputVal := "";
        tryCount := 0;
        PlayWord(playIdle);
        isWorking := false;
      }
    }

    method OnResultShowChanged()
      modifies this
      ensures Snapshot() == ResultShowEffect(old(Snapshot()))
    {
      if resultShow {
        isRetry := false;
      }
    }

    method ChangeRetry(state: bool)
      modifies this
      ensures Snapshot() == PracticeFlow.ChangeRetry(old(Snapshot()), state)
    {
      isRetry := state;
    }

    /** The retry effect: empty the board, go back to word 1 and hide the
        result; the `quizNo` effect follows only when the word number
        actually changed. */
    method OnRetryChanged(playIdle: bool)
      requires playIdle ==> 1 <= |data.quiz|
      modifies this
      ensures Snapshot() == RetryCommit(old(Snapshot()), data, playIdle)
    {
      if isRetry {
        var moved := quizNo != 1;
        board := [];
        quizNo := 1;
        resultShow := false;
        if moved {
          OnQuizNoChanged(playIdle);
        }
      }
    }
  }
}
