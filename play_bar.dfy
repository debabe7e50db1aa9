/**
 * The play bar: which sub-bar is rendered for each play-bar state.
 */
module PlayBar {
  import opened SpeakTypes

  /** The sub-bars; only `DefaultBar` is wired to `playSentence` and
      `startRecord`. */
  datatype SubBar = DefaultBar | PlaySentenceBar | RecordingBar

  /** The sub-bars the three independent conditions of the bar render. */
  function RenderedSubBars(state: PlayBarState): (bars: set<SubBar>)
    ensures |bars| <= 1
    ensures DefaultBar in bars <==> state == Idle
    ensures PlaySentenceBar in bars <==> state == PlayingSentence
    ensures RecordingBar in bars <==> state == Recording
  {
    (if state == Idle then {DefaultBar} else {}) +
    (if state == PlayingSentence then {PlaySentenceBar} else {}) +
    (if state == Recording then {RecordingBar} else {})
  }

  /** Play and record controls are offered exactly when the bar is idle. */
  predicate OffersControls(state: PlayBarState) {
    DefaultBar in RenderedSubBars(state)
  }

  /** The user-audio, correct and incorrect states render no sub-bar at all,
      and no state but `''` offers the controls. */
  lemma ControlsOnlyWhenIdle(state: PlayBarState)
    ensures OffersControls(state) <==> state == Idle
    ensures state.PlayingUserAudio? || state.Correct? || state.Incorrect? ==> RenderedSubBars(state) == {}
  {
  }
}
