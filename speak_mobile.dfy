/**
 * The mobile speaking page: it owns the busy flag, the latest score, the
 * result-view flag, and drives the container and the audio hook. Each
 * handler and effect is proved to perform the transition of the same name
 * in module SpeakFlow.
 */
module SpeakMobile {
  import opened SpeakTypes
  import opened SpeakingAudio
  import opened SpeakContainer
  import SpeakFlow

  class SpeakMobile {
    const speakData: seq<SpeakItem>
    const container: SpeakContainer
    const audio: SpeakingAudio
    var isWorking: bool
    var sentenceScore: Option<ScoreResult>
    var isResultRecord: bool
    var view: SpeakFlow.View

    /** The page, the container and the hook share one item list. */
    predicate Valid() {
      container.speakData == speakData && audio.speakData == speakData
    }

    ghost function Snapshot(): SpeakFlow.Session
      reads this, container, audio
    {
      SpeakFlow.Session(container.tryCount, container.quizIndex, container.playBarState,
                        isWorking, sentenceScore, isResultRecord, view, audio.Model())
    }

    ghost predicate IndexInRange()
      reads container
    {
      0 <= container.quizIndex < |speakData|
    }

    constructor (container: SpeakContainer, audio: SpeakingAudio)
      requires audio.speakData == container.speakData
      ensures Valid() && this.container == container && this.audio == audio
      ensures !isWorking && sentenceScore == None && !isResultRecord && view == SpeakFlow.Speaking
    {
      speakData := container.speakData;
      this.container := container;
      this.audio := audio;
      isWorking := false;
      sentenceScore := None;
      isResultRecord := false;
      view := SpeakFlow.Speaking;
    }

    method PlaySentence()
      requires Valid()
      modifies this, container, audio
      ensures Snapshot() == SpeakFlow.PlaySentence(old(Snapshot()), speakData)
    {
      if !isWorking {
        isWorking := true;
        container.ChangePlayBarState(PlayingSentence);
        audio.PlayAudio(audio.pageSeq.playPage, audio.pageSeq.sequence);
      }
    }

    /** Returns the arguments handed to the recorder, if it is started. */
    method StartRecord() returns (request: Option<SpeakFlow.RecordRequest>)
      requires Valid() && IndexInRange()
      modifies this, audio
      ensures request == SpeakFlow.RecordRequestFor(old(Snapshot()), speakData)
      ensures Snapshot() == SpeakFlow.StartRecord(old(Snapshot()))
    {
      request := None;
      if !isWorking {
        isWorking := true;
        audio.StopAudio();
        var item := speakData[container.quizIndex];
        request := Some(SpeakFlow.RecordRequest(item.sentence, item.soundPath));
      }
    }

    /** `changeSentenceScore` and the effect it triggers; returns the record
        submitted to the result service, if `saveResult` is called. */
    method ChangeSentenceScore(score: ScoreResult) returns (save: Option<SpeakFlow.SpeakUserAnswer>)
      requires Valid() && IndexInRange()
      modifies this
      ensures save == SpeakFlow.SaveRequestFor(old(Snapshot()), speakData, score)
      ensures Snapshot() == SpeakFlow.ChangeSentenceScore(old(Snapshot()), score)
    {
      sentenceScore := Some(score);
      // the record saveResult builds for the current item
      var item := speakData[container.quizIndex];
      var answer := SpeakFlow.SpeakUserAnswer(
        speakData[0].challengeNumber, item.page, item.sequence, item.quizNo, item.sentence,
        score.totalScore, score, SpeakFlow.IsLastQuiz(speakData, container.quizIndex));
      save := None;
      if score.totalScore >= PassScore {
        save := Some(answer);
      } else {
        if container.tryCount + 1 >= MaxTries {
          save := Some(answer);
        } else {
          isResultRecord := true;
        }
      }
    }

    /** The service's answer to `saveResult`. */
    method SaveAcknowledged(result: int)
      modifies this
      ensures Snapshot() == SpeakFlow.SaveAcknowledged(old(Snapshot()), result)
    {
      if result == 0 {
        isResultRecord := true;
      }
    }

    method ChangeRecordResult(state: bool)
      modifies this
      ensures Snapshot() == SpeakFlow.ChangeRecordResult(old(Snapshot()), state)
      ensures sentenceScore == old(sentenceScore) && isWorking == old(isWorking) && view == old(view)
    {
      isResultRecord := state;
    }

    /** The effect on `isResultRecord`. */
    method OnRecordResultChanged()
      requires Valid()
      modifies this, container
      ensures Snapshot() == SpeakFlow.ResultRecordEffect(old(Snapshot()), speakData)
    {
      if sentenceScore.Some? {
        if !isResultRecord {
          var isLastQuiz := SpeakFlow.IsLastQuiz(speakData, container.quizIndex);
          if sentenceScore.value.totalScore >= PassScore {
            if isLastQuiz {
              view := SpeakFlow.Story;
            } else {
              container.ChangeQuizIndex(container.quizIndex + 1);
            }
          } else {
            if container.tryCount + 1 >= MaxTries {
              if isLastQuiz {
                view := SpeakFlow.Story;
              } else {
                container.ChangeQuizIndex(container.quizIndex + 1);
              }
            } else {
              container.IncreaseTryCount();
            }
          }
        }
      }
    }

    /** The page's effect on `quizIndex`. */
    method OnQuizIndexChanged()
      requires Valid() && IndexInRange()
      modifies this, container, audio
      ensures Snapshot() == SpeakFlow.QuizIndexEffect(old(Snapshot()), speakData)
    {
      var item := speakData[container.quizIndex];
      audio.ChangePageSeq(item.page, item.sequence);
      sentenceScore := None;
      container.ResetTryCount();
      isWorking := false;
    }

    /** The effect on `tryCount`. */
    method OnTryCountChanged()
      requires Valid()
      modifies container
      ensures Snapshot() == SpeakFlow.TryCountEffect(old(Snapshot()))
    {
      if container.tryCount >= MaxTries {
        container.ChangeQuizIndex(container.quizIndex + 1);
      } else {
        container.ChangePlayBarState(Idle);
      }
    }

    /** The effect on `playBarState`. */
    method OnPlayBarStateChanged()
      modifies this
      ensures Snapshot() == SpeakFlow.PlayBarStateEffect(old(Snapshot()))
    {
      if container.playBarState == Idle {
        isWorking := false;
      }
    }

    // The audio hook's effects, seen from the page that owns the hook.

    /** The hook's effect on the quiz index. */
    method HookQuizIndexChanged()
      requires Valid() && IndexInRange()
      modifies container, audio
      ensures Snapshot() == SpeakFlow.SkipMarkerEffect(old(Snapshot()), speakData)
    {
      audio.OnQuizIndexChanged(container);
    }

    /** The hook's effect on `pageSeq`. */
    method HookPageSeqChanged()
      requires Valid()
      modifies audio
      ensures Snapshot() == SpeakFlow.PageSeqEffect(old(Snapshot()), speakData)
    {
      audio.OnPageSeqChanged();
    }

    /** The player's `canplaythrough` event. */
    method AudioCanPlayThrough()
      modifies container, audio
      ensures Snapshot() == SpeakFlow.CanPlayThrough(old(Snapshot()))
    {
      audio.OnCanPlayThrough(container);
    }

    /** The player's `ended` event. */
    method AudioEnded()
      modifies container, audio
      ensures Snapshot() == SpeakFlow.Ended(old(Snapshot()))
    {
      audio.OnEnded(container);
    }
  }
}
