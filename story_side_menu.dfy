/**
 * The story side menu: what the quiz button does, when the bonus label is
 * shown, and what the speaking entry does.
 */
module StorySideMenu {

  /** The app-level view. */
  datatype View = StoryView | QuizView

  datatype Alert = ReadToTheEnd | RetestPolicy | ServicePreparing

  /** What the learner sees around the menu. */
  datatype Screen = Screen(view: View, sideOpen: bool, ratingShow: bool, alerts: seq<Alert>)

  /** Inputs of the quiz button: `availableQuizStatus`, `isPreference`,
      `isReadingComplete` and `storyMode`. */
  datatype QuizGate = QuizGate(status: int, isPreference: bool, isReadingComplete: bool, storyMode: string)

  /** The quiz button's click handler. */
  function QuizButton(s: Screen, g: QuizGate): Screen {
    if g.status == 0 then
      if g.isPreference then s.(view := QuizView)
      else if g.isReadingComplete || g.storyMode == "Story" then
        s.(sideOpen := false, ratingShow := true)
      else s.(alerts := s.alerts + [ReadToTheEnd])
    else if g.status == 1 then s.(alerts := s.alerts + [RetestPolicy])
    else s
  }

  /** The decision table of the quiz button, row by row. */
  lemma QuizButtonTable(s: Screen, g: QuizGate)
    ensures QuizButton(s, g).view != s.view ==> g.status == 0 && g.isPreference
    ensures g.status == 0 && g.isPreference ==> QuizButton(s, g) == s.(view := QuizView)
    ensures g.status == 0 && !g.isPreference && (g.isReadingComplete || g.storyMode == "Story") ==>
      QuizButton(s, g) == s.(sideOpen := false, ratingShow := true)
    ensures g.status == 0 && !g.isPreference && !g.isReadingComplete && g.storyMode != "Story" ==>
      QuizButton(s, g) == s.(alerts := s.alerts + [ReadToTheEnd])
    ensures g.status == 1 ==> QuizButton(s, g) == s.(alerts := s.alerts + [RetestPolicy])
    ensures g.status != 0 && g.status != 1 ==> QuizButton(s, g) == s
  {
  }

  /** An alert is the only thing a blocked click produces: whenever the quiz
      button raises an alert, view, menu and rating are unchanged. */
  lemma AlertsChangeNothingElse(s: Screen, g: QuizGate)
    ensures |QuizButton(s, g).alerts| > |s.alerts| ==>
      QuizButton(s, g).(alerts := s.alerts) == s
  {
  }

  /** The entries of the bonus section. */
  datatype BonusEntry = MovieEntry | SpeakingEntryItem

  /** The bonus section lists the movie entry when the book has an
      animation, then the speaking entry when speaking is available. */
  function BonusEntries(animationPath: string, isAvailableSpeaking: bool): (entries: seq<BonusEntry>)
    ensures MovieEntry in entries <==> animationPath != ""
    ensures SpeakingEntryItem in entries <==> isAvailableSpeaking
    ensures |entries| <= 2
  {
    (if animationPath != "" then [MovieEntry] else []) +
    (if isAvailableSpeaking then [SpeakingEntryItem] else [])
  }

  /** The "bonus study" label heads the section exactly when the section has
      at least one entry: it is never shown over an empty section, and never
      missing above a listed entry. */
  function ShowsBonusLabel(animationPath: string, isAvailableSpeaking: bool): (shown: bool)
    ensures shown <==> |BonusEntries(animationPath, isAvailableSpeaking)| > 0
  {
    animationPath != "" || isAvailableSpeaking
  }

  /** The speaking entry only alerts that the service is being prepared. */
  function SpeakingEntry(s: Screen): (t: Screen)
    ensures t.view == s.view && t.sideOpen == s.sideOpen && t.ratingShow == s.ratingShow
    ensures t.alerts == s.alerts + [ServicePreparing]
  {
    s.(alerts := s.alerts + [ServicePreparing])
  }
}
