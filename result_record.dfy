/**
 * The result view shown after a recording: phoneme colour bands, the
 * pass / try-again footer, the detail toggle, and its own audio element
 * for the native and the learner's recordings.
 */
module ResultRecord {
  import opened SpeakTypes
  import SpeakMobile
  import SpeakFlow

  /** The colour classes a phoneme may carry. */
  datatype Band = Red | Orange | Green

  /**
   * The classes the phoneme's template string adds: three independent
   * conditions, each contributing its class when it holds. Exactly one of
   * them holds for every score.
   */
  function PhonemeBands(score: real): (bands: set<Band>)
    ensures |bands| == 1
    ensures Red in bands <==> score < 30.0
    ensures Orange in bands <==> 30.0 <= score < 70.0
    ensures Green in bands <==> score >= 70.0
  {
    (if score < 30.0 then {Red} else {}) +
    (if score >= 30.0 && score < 70.0 then {Orange} else {}) +
    (if score >= 70.0 then {Green} else {})
  }

  /** The percentage shown under a phoneme: `Math.floor(score)`. */
  function PhonemePercent(score: real): (shown: int)
    ensures shown as real <= score < shown as real + 1.0
  {
    score.Floor
  }

  /** The footer's text: "Good Job!" or "Try Again (n / 3)". */
  datatype Footer = GoodJob | TryAgain(attempt: int, outOf: int)

  /**
   * "Good Job!" exactly for a passing score, otherwise the attempt number
   * out of three. Against the page's decision (`SpeakFlow.Finalizes`): praise
   * only for a score the page accepts; a try the page will repeat shows the
   * next attempt out of three; and a try the page gives up on without a pass
   * still reads "Try Again".
   */
  function FooterFor(totalScore: real, tryCount: int): (f: Footer)
    ensures f.GoodJob? <==> totalScore >= PassScore
    ensures f.TryAgain? ==> f == TryAgain(tryCount + 1, MaxTries)
    ensures f.GoodJob? ==> SpeakFlow.Finalizes(totalScore, tryCount)
    ensures !SpeakFlow.Finalizes(totalScore, tryCount) ==> f == TryAgain(tryCount + 1, MaxTries)
    ensures SpeakFlow.Finalizes(totalScore, tryCount) && f.TryAgain? ==> tryCount + 1 >= MaxTries
  {
    if totalScore >= 70.0 then GoodJob else TryAgain(tryCount + 1, 3)
  }

  /** After "Good Job!", closing the view moves on: to the next index, or to
      the story view after the last sentence. */
  lemma GoodJobMovesOn(s: SpeakFlow.Session, items: seq<SpeakItem>)
    requires s.score.Some? && FooterFor(s.score.value.totalScore, s.tryCount).GoodJob?
    ensures var t := SpeakFlow.ResultRecordEffect(SpeakFlow.ChangeRecordResult(s, false), items);
      t.tryCount == s.tryCount &&
      ((t.quizIndex == s.quizIndex + 1 && t.view == s.view) || (t.quizIndex == s.quizIndex && t.view == SpeakFlow.Story))
  {
    SpeakFlow.CloseResultOutcome(s, items);
  }

  /** On a try the page repeats, the attempt the footer announces is the try
      count the page holds once the view is closed, on the same sentence. */
  lemma FooterNamesNextTry(s: SpeakFlow.Session, items: seq<SpeakItem>)
    requires s.score.Some? && !SpeakFlow.Finalizes(s.score.value.totalScore, s.tryCount)
    ensures var t := SpeakFlow.ResultRecordEffect(SpeakFlow.ChangeRecordResult(s, false), items);
      FooterFor(s.score.value.totalScore, s.tryCount) == TryAgain(t.tryCount, MaxTries) &&
      t.quizIndex == s.quizIndex && t.view == s.view
  {
    SpeakFlow.CloseResultOutcome(s, items);
  }

  /** The third failed try shows "Try Again (3 / 3)", yet closing the view
      saves nothing more and moves on, like a pass. */
  lemma LastFailureReadsTryAgainButMovesOn(s: SpeakFlow.Session, items: seq<SpeakItem>)
    requires s.score.Some? && s.score.value.totalScore < PassScore
    requires SpeakFlow.TryBound(s) && SpeakFlow.Finalizes(s.score.value.totalScore, s.tryCount)
    ensures FooterFor(s.score.value.totalScore, s.tryCount) == TryAgain(MaxTries, MaxTries)
    ensures var t := SpeakFlow.ResultRecordEffect(SpeakFlow.ChangeRecordResult(s, false), items);
      t.tryCount == s.tryCount &&
      ((t.quizIndex == s.quizIndex + 1 && t.view == s.view) || (t.quizIndex == s.quizIndex && t.view == SpeakFlow.Story))
  {
    SpeakFlow.CloseResultOutcome(s, items);
  }

  /** The phoneme panel's `display` style. */
  function PanelDisplay(open: bool): string {
    if open then "flex" else "none"
  }

  /** The toggle's label names the action it offers: 'close' exactly while
      the phoneme panel is displayed, 'detail' exactly while it is hidden. */
  function ToggleLabel(open: bool): (caption: string)
    ensures caption == "close" <==> PanelDisplay(open) == "flex"
    ensures caption == "detail" <==> PanelDisplay(open) == "none"
  {
    if open then "close" else "detail"
  }

  class ResultRecordView {
    const nativeAudio: string
    const userAudio: string
    var src: string
    var currentTime: real
    var togglePhonemes: bool

    constructor (nativeAudio: string, userAudio: string)
      ensures this.nativeAudio == nativeAudio && this.userAudio == userAudio
      ensures src == "" && currentTime == 0.0 && !togglePhonemes
    {
      this.nativeAudio := nativeAudio;
      this.userAudio := userAudio;
      src := "";
      currentTime := 0.0;
      togglePhonemes := false;
    }

    /** The "Native" button. */
    method PlayNative()
      modifies this
      ensures src == nativeAudio
      ensures currentTime == old(currentTime) && togglePhonemes == old(togglePhonemes)
    {
      src := nativeAudio;
    }

    /** The "My" button. */
    method PlayMine()
      modifies this
      ensures src == userAudio
      ensures currentTime == old(currentTime) && togglePhonemes == old(togglePhonemes)
    {
      src := userAudio;
    }

    /** The detail toggle flips the phoneme panel. */
    method Toggle()
      modifies this
      ensures togglePhonemes == !old(togglePhonemes)
      ensures PanelDisplay(togglePhonemes) != PanelDisplay(old(togglePhonemes))
      ensures ToggleLabel(togglePhonemes) != ToggleLabel(old(togglePhonemes))
      ensures src == old(src) && currentTime == old(currentTime)
    {
      if togglePhonemes {
        togglePhonemes := false;
      } else {
        togglePhonemes := true;
      }
    }

    /** `closeResultRecord`: silence this view's audio and tell the page the
        result view is closed. */
    method Close(page: SpeakMobile.SpeakMobile)
      modifies this, page
      ensures src == "" && currentTime == 0.0 && togglePhonemes == old(togglePhonemes)
      ensures page.Snapshot() == SpeakFlow.ChangeRecordResult(old(page.Snapshot()), false)
      ensures !page.isResultRecord
      ensures page.sentenceScore == old(page.sentenceScore) && page.isWorking == old(page.isWorking)
      ensures page.view == old(page.view)
    {
      src := "";
      currentTime := 0.0;
      page.ChangeRecordResult(false);
    }
  }
}
