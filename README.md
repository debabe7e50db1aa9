# Speaking practice and vocabulary practice, modelled in Dafny

This project models the control logic of an e-learning front end written in React and TypeScript. Two pages are covered:

- **Speaking practice.** A learner listens to a sentence of an e-book, records themselves, gets a pronunciation score, and passes or retries.
- **Vocabulary practice.** A learner hears a word and types it a fixed number of times.

Several small view classifiers around these pages are covered as well. React effects are modelled as named transitions and are not scheduled. Each page's state is a snapshot datatype, and every handler and effect is a function on that snapshot.

Where the source mutates state, a class carries the same fields. For the two pages and the audio hook, each method is proved to move the class's snapshot exactly as the function of the same name says; for example, `SpeakMobile.SpeakMobile.StartRecord` ensures `Snapshot() == SpeakFlow.StartRecord(old(Snapshot()))`. The smaller classes (`SpeakContainer.SpeakContainer`, `ResultRecord.ResultRecordView`) have no snapshot; their methods state each field's new value directly. The lemmas about the functions state what the page promises.

Files and modules:

- `speak_types.dfy` (`SpeakTypes`): the speaking data: items, play-bar states, page/sequence pairs and scores. It also holds the policy constants: pass at 70, 3 tries, and page-turn marker 999. `FirstIndex` models `findIndex`/`find`.
- `speak_container.dfy` (`SpeakContainer`): the container that owns `tryCount`, `quizIndex` and `playBarState`, and the resume search.
- `speaking_audio.dfy` (`SpeakingAudio`): the audio hook: one player, `playState` and `pageSeq`.
- `speak_flow.dfy` (`SpeakFlow`): the speaking page's session snapshot, every handler and effect as a transition, runs of arbitrary event sequences, and the properties.
- `speak_mobile.dfy` (`SpeakMobile`): the speaking page as a class over the container and the hook.
- `result_record.dfy` (`ResultRecord`): the result view: phoneme bands, the footer, the toggle and its audio.
- `play_bar.dfy` (`PlayBar`), `content.dfy` (`Content`), `story_side_menu.dfy` (`StorySideMenu`), `example.dfy` (`Example`): the small view classifiers.
- `practice_flow.dfy` (`PracticeFlow`): the vocabulary practice's snapshot, `checkAnswer` and the effects, runs, and the properties.
- `vocabulary_practice.dfy` (`VocabularyPractice`): the practice page as a class.

Conventions:

- Saves are not calls. The server's answer is an input: a result code, plus a message for the practice. The record a save would send is returned by the method, or given by a function (`SpeakFlow.SaveRequestFor`, `PracticeFlow.SaveRequest`).
- The play state a handler sees is the value captured by its render. In `PracticeFlow` and `VocabularyPractice` it is an input (`playIdle`), because the word player lives outside the page. In `SpeakFlow` it is the hook's `playState`, kept in the snapshot (`s.player.playState`), because the hook is part of the model.
- An index out of range would be a JavaScript `TypeError`. It is excluded by `requires` where the source indexes without a check (`speakData[quizIndex]`, `Quiz[quizNo - 1]`, the resume loop). For the practice's runs, it is shown never to happen (`PracticeFlow.RunStaysOnWord`). For the resume loop it can happen; see "## Findings".

Three behaviours of the code that a reader might expect to be otherwise:

- **Which items count as speakable.** No single rule keeps the cursor off items whose sentence is null or whose audio path is empty. Three different tests decide which items count:
  - resume stops at an item with non-empty `Contents` and `DataPath`;
  - "last quiz" looks for a non-null `Sentence`;
  - only sequence 999 is skipped.

  After a final outcome the index moves by exactly one (`quizIndex + 1`), not to the next speakable item. An item with a null sentence and a sequence other than 999 is therefore visited.
- **Two retry thresholds.** The code has both `tryCount + 1 >= 3` (score and result effects) and `tryCount >= 3` (try-count effect). Both are modelled. `SpeakFlow.TryCountEffectNeverAdvances` proves that the second one never fires.
- **A rejected save.** A nonzero save result leaves every state unchanged, so there is no resubmission. The result view stays closed, and `SpeakMobile`'s code does not release the busy flag. Whether the recorder later resets the play bar, which would release it through the play-bar effect, depends on the recorder component, which is not part of this model.

## Model

| member | source | states |
|---|---|---|
| SpeakTypes.FirstIndex | src/pages/containers/SpeakContainer.tsx:73-78 | `findIndex`: -1 exactly when nothing matches, otherwise the index of the first match |
| SpeakContainer.ResumeStart | src/pages/containers/SpeakContainer.tsx:67-81 | the search starts at 0 without records or when nothing matches the last record, otherwise one past the first item matching the last record's page and sequence with non-empty DataPath |
| SpeakContainer.FindSpeakableFrom | src/pages/containers/SpeakContainer.tsx:83-92 | the `while (true)` loop returns the smallest index at or after the start whose Contents and DataPath are non-empty; it needs such an item to exist, because the loop has no bounds check; the index is the one `FirstSpeakableFrom` finds |
| SpeakContainer.FirstSpeakableFrom | src/pages/containers/SpeakContainer.tsx:83-92 | the search with a bounds check: `None` exactly when no item at or after the start has non-empty Contents and DataPath, otherwise the first such index |
| SpeakContainer.ResumeRunsPastTheEnd | src/pages/containers/SpeakContainer.tsx:67-92 | two items and a learner who recorded both: the search starts at 2, past the end, with no speakable item left |
| SpeakContainer.SpeakContainer.constructor | src/pages/containers/SpeakContainer.tsx:42-44 | initial state: tryCount 0, quizIndex 0, play bar `''` |
| SpeakContainer.SpeakContainer.Resume | src/pages/containers/SpeakContainer.tsx:64-96 | the resume effect sets quizIndex to the first speakable index from the computed start; nothing else changes |
| SpeakContainer.SpeakContainer.ChangeQuizIndex | src/pages/containers/SpeakContainer.tsx:102-104 | overwrites exactly quizIndex |
| SpeakContainer.SpeakContainer.ChangePlayBarState | src/pages/containers/SpeakContainer.tsx:110-112 | overwrites exactly playBarState |
| SpeakContainer.SpeakContainer.IncreaseTryCount | src/pages/containers/SpeakContainer.tsx:117-119 | tryCount + 1, nothing else changes |
| SpeakContainer.SpeakContainer.ResetTryCount | src/pages/containers/SpeakContainer.tsx:124-126 | tryCount 0, nothing else changes |
| SpeakingAudio.PlayIgnoredWhilePlaying | src/hooks/speak/useSpeakingAudio.ts:91-92 | `playAudio` changes nothing unless playState is `''` |
| SpeakingAudio.PlaySelectsFirstMatch | src/hooks/speak/useSpeakingAudio.ts:93-102 | when idle, src becomes the SoundPath of the first item on the page with the hook's current sequence; without one, src is `''` and currentTime 0 |
| SpeakingAudio.PlayIgnoresSequenceArgument | src/hooks/speak/useSpeakingAudio.ts:91-94 | the `seq` argument has no effect; `pageSeq.sequnce` is used instead |
| SpeakingAudio.StopIsIdempotent | src/hooks/speak/useSpeakingAudio.ts:109-115 | stop clears src, rewinds, sets playState `''` from any state and keeps pageSeq; a second stop changes nothing |
| SpeakingAudio.SetPageSeqExact | src/hooks/speak/useSpeakingAudio.ts:117-122 | pageSeq becomes exactly (page, seq); nothing else changes |
| SpeakingAudio.AutoPlayFollowsStalePlayState | src/hooks/speak/useSpeakingAudio.ts:75-83 | a new pageSeq always stops the player; the new item's sound is loaded only if nothing was playing in the render that changed pageSeq |
| SpeakingAudio.SpeakingAudio.constructor | src/hooks/speak/useSpeakingAudio.ts:23-31 | the player starts idle and empty, with pageSeq at the item under quizIndex |
| SpeakingAudio.SpeakingAudio.PlayAudio | src/hooks/speak/useSpeakingAudio.ts:91-104 | the player moves as `Play` says |
| SpeakingAudio.SpeakingAudio.StopAudio | src/hooks/speak/useSpeakingAudio.ts:109-115 | the player moves as `Stop` says |
| SpeakingAudio.SpeakingAudio.ChangePageSeq | src/hooks/speak/useSpeakingAudio.ts:117-122 | the player moves as `SetPageSeq` says |
| SpeakingAudio.SpeakingAudio.OnPageSeqChanged | src/hooks/speak/useSpeakingAudio.ts:50-84 | cleanup stop, then `playAudio` with the stale play state |
| SpeakingAudio.SpeakingAudio.OnQuizIndexChanged | src/hooks/speak/useSpeakingAudio.ts:34-47 | on a sequence-999 item, quizIndex + 1 and pageSeq unchanged; otherwise pageSeq becomes the item's (Page, Sequence) |
| SpeakingAudio.SpeakingAudio.OnCanPlayThrough | src/hooks/speak/useSpeakingAudio.ts:52-55 | playState `'play'` and play bar `'playing-sentence'` |
| SpeakingAudio.SpeakingAudio.OnEnded | src/hooks/speak/useSpeakingAudio.ts:67-70 | playState `''` and play bar `''` |
| SpeakFlow.SentencesFromZero | src/pages/speak/SpeakMobile.tsx:216-220 | the count of later items with a sentence is 0 exactly when every later item's Sentence is null |
| SpeakFlow.IsLastQuizIff | src/pages/speak/SpeakMobile.tsx:113-117 | `isLastQuiz` holds exactly when no item after quizIndex has a non-null Sentence |
| SpeakFlow.BusyFlagBlocksActions | src/pages/speak/SpeakMobile.tsx:177-184 | while busy, `playSentence` and `startRecord` change nothing and send nothing to the recorder |
| SpeakFlow.ActionsTakeBusyFlag | src/pages/speak/SpeakMobile.tsx:197-209 | when free, both take the busy flag; `startRecord` stops the audio, then hands the item's Sentence and SoundPath to the recorder |
| SpeakFlow.ScoreDecision | src/pages/speak/SpeakMobile.tsx:84-98 | a score is saved exactly when it is at least 70 or tryCount + 1 >= 3; otherwise the result view opens; the saved record carries the item, the score and isLastQuiz |
| SpeakFlow.SaveAnswerGatesResultView | src/pages/speak/SpeakMobile.tsx:235-239 | result 0 opens the result view; any other result changes nothing |
| SpeakFlow.CloseResultOutcome | src/pages/speak/SpeakMobile.tsx:109-142 | closing after a final outcome goes to the story view on the last quiz, else to quizIndex + 1; otherwise only tryCount grows |
| SpeakFlow.QuizIndexChangeResets | src/pages/speak/SpeakMobile.tsx:148-155 | a new index clears the score, resets the tries, releases the busy flag and points pageSeq at the item |
| SpeakFlow.IdleBarReleasesBusyFlag | src/pages/speak/SpeakMobile.tsx:100-104 | the busy flag is released when the bar becomes `''`, and only then |
| SpeakFlow.StepKeepsTryBound | src/pages/speak/SpeakMobile.tsx:119-163 | every handler and effect keeps 0 <= tryCount < 3 |
| SpeakFlow.RunKeepsTryBound | src/pages/speak/SpeakMobile.tsx:119-163 | in every run, whatever the order of events, tryCount stays below 3 |
| SpeakFlow.TryCountEffectNeverAdvances | src/pages/speak/SpeakMobile.tsx:157-163 | from a fresh session, the `tryCount >= 3` branch never fires; the effect only resets the bar |
| SpeakFlow.FailedAttemptRetries | src/pages/speak/SpeakMobile.tsx:84-163 | a failing score with tries left saves nothing; after closing the result view, the cursor stays on the same item with one more try counted and the bar reset; the busy flag is released exactly when it was free already or the bar was not idle, because the play-bar effect re-runs only on a change of bar |
| SpeakFlow.ThirdFailureIsSaved | src/pages/speak/SpeakMobile.tsx:84-98 | three failing scores on one item: the first two retry, the third is saved with its score |
| SpeakFlow.SeventyPasses | src/pages/speak/SpeakMobile.tsx:86-88 | a score of exactly 70 is saved on the first try |
| SpeakFlow.MarkerCommit | src/hooks/speak/useSpeakingAudio.ts:34-47 | landing on a 999 marker moves the index on by one, while the page's effect sets pageSeq to the marker's (page, 999) |
| SpeakFlow.MarkerIsSkippedAfterFinalize | src/pages/speak/SpeakMobile.tsx:119-125 | with items "Hi", a marker, and "Bye": passing "Hi" moves to index 1, the marker moves on to index 2, and index 2 is the last quiz |
| SpeakMobile.SpeakMobile.constructor | src/pages/speak/SpeakMobile.tsx:48-65 | not busy, no score, result view closed, speaking view |
| SpeakMobile.SpeakMobile.PlaySentence | src/pages/speak/SpeakMobile.tsx:177-184 | the page moves as `SpeakFlow.PlaySentence` says |
| SpeakMobile.SpeakMobile.StartRecord | src/pages/speak/SpeakMobile.tsx:197-209 | the page moves as `SpeakFlow.StartRecord` says and returns the recorder request `RecordRequestFor` |
| SpeakMobile.SpeakMobile.ChangeSentenceScore | src/pages/speak/SpeakMobile.tsx:84-98 | stores the score and returns the save record `SaveRequestFor`; without a save, the result view opens |
| SpeakMobile.SpeakMobile.SaveAcknowledged | src/pages/speak/SpeakMobile.tsx:235-239 | the page moves as `SpeakFlow.SaveAcknowledged` says |
| SpeakMobile.SpeakMobile.ChangeRecordResult | src/pages/speak/SpeakMobile.tsx:242-244 | sets exactly isResultRecord |
| SpeakMobile.SpeakMobile.OnRecordResultChanged | src/pages/speak/SpeakMobile.tsx:109-142 | the page moves as `SpeakFlow.ResultRecordEffect` says |
| SpeakMobile.SpeakMobile.OnQuizIndexChanged | src/pages/speak/SpeakMobile.tsx:148-155 | the page moves as `SpeakFlow.QuizIndexEffect` says |
| SpeakMobile.SpeakMobile.OnTryCountChanged | src/pages/speak/SpeakMobile.tsx:157-163 | the page moves as `SpeakFlow.TryCountEffect` says |
| SpeakMobile.SpeakMobile.OnPlayBarStateChanged | src/pages/speak/SpeakMobile.tsx:100-104 | the page moves as `SpeakFlow.PlayBarStateEffect` says |
| SpeakMobile.SpeakMobile.HookQuizIndexChanged | src/hooks/speak/useSpeakingAudio.ts:34-47 | the hook's quiz-index effect moves the page as `SpeakFlow.SkipMarkerEffect` says |
| SpeakMobile.SpeakMobile.HookPageSeqChanged | src/hooks/speak/useSpeakingAudio.ts:50-84 | the hook's pageSeq effect moves the page as `SpeakFlow.PageSeqEffect` says |
| SpeakMobile.SpeakMobile.AudioCanPlayThrough | src/hooks/speak/useSpeakingAudio.ts:52-57 | `canplaythrough` moves the page as `SpeakFlow.CanPlayThrough` says |
| SpeakMobile.SpeakMobile.AudioEnded | src/hooks/speak/useSpeakingAudio.ts:67-72 | `ended` moves the page as `SpeakFlow.Ended` says |
| ResultRecord.PhonemeBands | src/components/speak/ResultRecord.tsx:95-102 | red iff score < 30, orange iff 30 <= score < 70, green iff score >= 70; exactly one class applies |
| ResultRecord.PhonemePercent | src/components/speak/ResultRecord.tsx:108 | the shown percentage is the floor of the score |
| ResultRecord.FooterFor | src/components/speak/ResultRecord.tsx:137-148 | "Good Job!" iff total_score >= 70, otherwise exactly "Try Again (tryCount + 1 / 3)"; praise only when the page's rule (`SpeakFlow.Finalizes`) accepts the try; "Try Again" on a try the page accepts happens only on the last of the three tries |
| ResultRecord.GoodJobMovesOn | src/components/speak/ResultRecord.tsx:137-148 | after "Good Job!", closing the view (`SpeakFlow.ResultRecordEffect`) moves to the next index, or to the story view after the last sentence, with the try count kept |
| ResultRecord.FooterNamesNextTry | src/components/speak/ResultRecord.tsx:147 | on a repeated try, the attempt number shown is exactly the try count the page holds once the view is closed, on the same sentence |
| ResultRecord.LastFailureReadsTryAgainButMovesOn | src/components/speak/ResultRecord.tsx:147 | the third failed try reads "Try Again (3 / 3)", yet closing the view moves on like a pass |
| ResultRecord.ToggleLabel | src/components/speak/ResultRecord.tsx:84-127 | the toggle reads 'close' exactly while the phoneme panel is displayed (`display: flex`) and 'detail' exactly while it is hidden |
| ResultRecord.ResultRecordView.constructor | src/components/speak/ResultRecord.tsx:22-48 | no source, details closed |
| ResultRecord.ResultRecordView.PlayNative | src/components/speak/ResultRecord.tsx:36-38 | the Native button sets src to the native audio (line 56) |
| ResultRecord.ResultRecordView.PlayMine | src/components/speak/ResultRecord.tsx:36-38 | the My button sets src to the learner's audio (line 64) |
| ResultRecord.ResultRecordView.Toggle | src/components/speak/ResultRecord.tsx:121-127 | flips togglePhonemes, and with it the panel's display and the label |
| ResultRecord.ResultRecordView.Close | src/components/speak/ResultRecord.tsx:40-46 | clears src, rewinds to 0 and closes the result view on the page (`changeRecordResult(false)`); nothing else on the page changes |
| PlayBar.RenderedSubBars | src/components/speak/PlayBar.tsx:53-62 | `''` renders the default bar, `'playing-sentence'` the play-sentence bar, `'recording'` the recording bar; at most one is rendered |
| PlayBar.ControlsOnlyWhenIdle | src/components/speak/PlayBar.tsx:15-21 | the play and record controls are offered exactly in state `''`; the user-audio, correct and incorrect states render nothing |
| Content.ShownPages | src/components/speak/Content.tsx:56-76 | mobile shows `pageNumber` alone; desktop shows an odd left page and right = left + 1, and `pageNumber` is among them |
| Content.SpreadIsShared | src/components/speak/Content.tsx:66-72 | both pages of a spread show the same spread |
| StorySideMenu.QuizButtonTable | src/components/story/common/StorySideMenu.tsx:82-102 | status 0 with preference opens the quiz; status 0 with the reading complete or story mode closes the menu and shows the rating; otherwise status 0 alerts; status 1 alerts the re-test policy; any other status does nothing; only the first row changes the view |
| StorySideMenu.AlertsChangeNothingElse | src/components/story/common/StorySideMenu.tsx:94-101 | a click that alerts changes neither the view, the menu nor the rating |
| StorySideMenu.BonusEntries | src/components/story/common/StorySideMenu.tsx:113-141 | the movie entry is listed iff AnimationPath is non-empty, the speaking entry iff speaking is available |
| StorySideMenu.ShowsBonusLabel | src/components/story/common/StorySideMenu.tsx:108-111 | the bonus label is shown exactly when the bonus section lists at least one entry |
| StorySideMenu.SpeakingEntry | src/components/story/common/StorySideMenu.tsx:128-137 | the speaking entry only alerts; view, menu and rating are kept |
| Example.CardNumbers | src/components/study/vocabulary-test-04/Example.tsx:48 | the card at position i shows i + 1, so a row of n cards is numbered 1 to n, increasing, with no number missing or repeated |
| Example.HighlightOnlyInReview | src/components/study/vocabulary-test-04/Example.tsx:37-44 | highlighted iff mode is 'Review', Average >= 70 and the card's submitted answer is the correct text; never outside 'Review' |
| Example.AtMostOneHighlighted | src/components/study/vocabulary-test-04/Example.tsx:39-41 | among cards with distinct texts, at most one is highlighted |
| Example.ReviewHighlightsTheCorrectClick | src/components/study/vocabulary-test-04/Example.tsx:37-45 | in review mode with Average >= 70 and distinct texts, the card whose click submits the correct text is highlighted and no other card is |
| PracticeFlow.PlayWord | src/pages/study/VocabularyPractice3.tsx:398-404 | when idle, plays the current word's Sound; otherwise stops; nothing else changes |
| PracticeFlow.RetryResponse | src/pages/study/VocabularyPractice3.tsx:195-214 | the synthetic retry answer is always result 0, with message 'finish' exactly on the final try of the last word |
| PracticeFlow.BusyCheckIsIgnored | src/pages/study/VocabularyPractice3.tsx:157-158 | a check while busy changes nothing and saves nothing |
| PracticeFlow.TypedVerdictIsExactMatch | src/pages/study/VocabularyPractice3.tsx:160-164 | with typing on, correct means the word's Text equals the input exactly, and a sent record carries that verdict |
| PracticeFlow.TypedCorrectTryRule | src/pages/study/VocabularyPractice3.tsx:219-242 | a correct, acknowledged try records a row and counts tryCount + 1; when tries reach QuizAnswerCount the practice advances and stays busy; otherwise the input is cleared, the word replays, busy is released and quizNo is kept |
| PracticeFlow.SkipRule | src/pages/study/VocabularyPractice3.tsx:245-311 | a wrong answer that may be skipped stops the audio and, once acknowledged, records a miss and advances whatever the try count |
| PracticeFlow.NoSkipOnlyClears | src/pages/study/VocabularyPractice3.tsx:312-317 | a wrong answer that may not be skipped only clears the input and releases busy; nothing is saved |
| PracticeFlow.UntypedIsAlwaysCorrect | src/pages/study/VocabularyPractice3.tsx:319-383 | with typing off, the answer is recorded as correct and the practice advances once acknowledged |
| PracticeFlow.RetryModeNeverSaves | src/pages/study/VocabularyPractice3.tsx:195-225 | retry mode sends no save, while every other branch that reaches the save sends one; only a correct typed answer can leave a finish note, and in retry mode only on the final try of the last word |
| PracticeFlow.BusyReleaseRule | src/pages/study/VocabularyPractice3.tsx:155-389 | a check releases busy exactly on a cleared input or a non-final correct try; a rejected save leaves busy taken and word, tries, board and result view unchanged |
| PracticeFlow.CheckMovesForwardByOne | src/pages/study/VocabularyPractice3.tsx:231-236 | a check keeps quizNo or moves it to the next existing word; the result view opens only on the last word (also lines 306-310, 378-382) |
| PracticeFlow.QuizNoEffectResets | src/pages/study/VocabularyPractice3.tsx:124-132 | a new word clears the input, resets tries to 0, plays the word and releases busy |
| PracticeFlow.RetryFromFirstWordStaysBusy | src/pages/study/VocabularyPractice3.tsx:140-147 | as written: a retry from word 1 leaves the page busy, with its old tries and input |
| PracticeFlow.SingleWordRetryIsStuck | src/pages/study/VocabularyPractice3.tsx:124-147 | a one-word practice finished once: after the retry the quiz shows again but every check is ignored |
| PracticeFlow.RetryRestartReopens | src/pages/study/VocabularyPractice3.tsx:140-147 | corrected retry: word 1, no tries, empty input, empty board, not busy, quiz shown |
| PracticeFlow.RetryRestartAgreesElsewhere | src/pages/study/VocabularyPractice3.tsx:124-147 | the corrected retry equals the as-written one whenever the retry starts from a word other than 1 |
| PracticeFlow.StepKeepsOnWord | src/pages/study/VocabularyPractice3.tsx:101-147 | every handler and effect is defined on a state naming an existing word and keeps it so |
| PracticeFlow.RunStaysOnWord | src/pages/study/VocabularyPractice3.tsx:101-404 | in every run, quizNo names an existing word, so `Quiz[quizNo - 1]` is never out of range |
| PracticeFlow.InitialOnWord | src/pages/study/VocabularyPractice3.tsx:73 | quizNo starts at 1, a word of any non-empty practice |
| VocabularyPractice.VocabularyPractice.constructor | src/pages/study/VocabularyPractice3.tsx:65-89 | intro shown, word 1, no tries, empty input, busy, not retrying |
| VocabularyPractice.VocabularyPractice.PlayWord | src/pages/study/VocabularyPractice3.tsx:398-404 | the page moves as `PracticeFlow.PlayWord` says |
| VocabularyPractice.VocabularyPractice.ChangeInputVal | src/pages/study/VocabularyPractice3.tsx:391-393 | sets exactly inputVal |
| VocabularyPractice.VocabularyPractice.Advance | src/pages/study/VocabularyPractice3.tsx:231-236 | past the last word the result view opens, else quizNo + 1 |
| VocabularyPractice.VocabularyPractice.CheckAnswer | src/pages/study/VocabularyPractice3.tsx:155-389 | the page moves as `PracticeFlow.CheckAnswer` says, and returns the save record `SaveRequest` |
| VocabularyPractice.VocabularyPractice.AcceptTyped | src/pages/study/VocabularyPractice3.tsx:219-242 | the correct-typing branch after the response |
| VocabularyPractice.VocabularyPractice.ScoreTry | src/pages/study/VocabularyPractice3.tsx:220-229 | finish note on a message, board row, tryCount + 1 |
| VocabularyPractice.VocabularyPractice.SkipWord | src/pages/study/VocabularyPractice3.tsx:245-311 | the skip branch: stop the audio, then advance on result 0 |
| VocabularyPractice.VocabularyPractice.AcceptUntyped | src/pages/study/VocabularyPractice3.tsx:375-383 | the typing-off branch after the response |
| VocabularyPractice.VocabularyPractice.CloseIntro | src/pages/study/VocabularyPractice3.tsx:92-99 | once the intro is gone, the word plays and busy is released |
| VocabularyPractice.VocabularyPractice.Load | src/pages/study/VocabularyPractice3.tsx:101-121 | shows the result when the resumed word is past the end; otherwise restores the board, tries and word |
| VocabularyPractice.VocabularyPractice.OnQuizNoChanged | src/pages/study/VocabularyPractice3.tsx:124-132 | the page moves as `PracticeFlow.QuizNoEffect` says |
| VocabularyPractice.VocabularyPractice.OnResultShowChanged | src/pages/study/VocabularyPractice3.tsx:134-138 | the result view ends retry mode |
| VocabularyPractice.VocabularyPractice.ChangeRetry | src/pages/study/VocabularyPractice3.tsx:424-426 | sets exactly isRetry |
| VocabularyPractice.VocabularyPractice.OnRetryChanged | src/pages/study/VocabularyPractice3.tsx:124-147 | the retry as written (`PracticeFlow.RetryCommit`): empties the board, goes back to word 1 and hides the result; the word is reset only when `quizNo` was not already 1 |

## Findings

| source | as written | input that shows it | evidently intended | confidence | as-written member | corrected member |
|---|---|---|---|---|---|---|
| src/pages/study/VocabularyPractice3.tsx:140-147 | the retry effect sets `quizNo` to 1 and relies on the `quizNo` effect (lines 124-132) to clear the input, reset the tries and release the busy flag; when `quizNo` is already 1, that effect does not run | a practice with one word and QuizAnswerCount 1: type the word, see the result, choose retry; the quiz reappears, but the busy flag is still set, so every check is ignored | a retry always restarts word 1 ready to be answered | medium, not executed | PracticeFlow.RetryCommit (shown by PracticeFlow.SingleWordRetryIsStuck) | PracticeFlow.RetryRestart (proved by PracticeFlow.RetryRestartReopens and PracticeFlow.RetryRestartAgreesElsewhere) |
| src/pages/containers/SpeakContainer.tsx:83-92 | the resume loop steps forward until it finds an item with non-empty Contents and DataPath, with no bounds check | a learner whose last recording is the book's last item: the search starts at `speakData.length` and reads `speakData[speakData.length].Contents`, a TypeError | the search stops at the end of the items, and the page knows no sentence is left | medium, not executed | SpeakContainer.FindSpeakableFrom (its requires fails for the inputs of SpeakContainer.ResumeRunsPastTheEnd) | SpeakContainer.FirstSpeakableFrom (`None` exactly when no speakable item is left, otherwise the first one) |

## Left out

- Network services (`saveSpeakResult`, `saveUserAnswer`, the data fetches): each save is an input result code (plus a message for the practice). A thrown save is treated like a nonzero result. Study and history ids are not part of the saved records modelled.
- `Number(res.result)` of a non-numeric string is not modelled; the result is an integer.
- The recorder (`useRecorder`) and the scoring service are not part of this model. `startRecord` returns what it hands to the recorder, and the score arrives as an event.
- Browser media: `play`/`pause`, autoplay and event timing are not modelled. The player is its `src`, `currentTime` and `playState`.
- ResultRecord.ResultRecordView: the view builds a new `Audio` element on every render and attaches its `canplaythrough` listener only once. The model keeps one element, so it does not capture that a button pressed after a re-render sets the source of an element without that listener.
- React scheduling: the order in which effects run, batching, and stale closures beyond the play state a handler sees. Runs allow any order of events.
- `clickSentence` (src/pages/speak/SpeakMobile.tsx:170-172) adds only a second busy check in front of `playSentence`; it is modelled by `SpeakFlow.PlaySentence`.
- Window resize, the viewer's scale and offset (src/components/speak/Content.tsx:33-51), and `progressWidth` (src/pages/speak/SpeakMobile.tsx:246-247): floating-point layout.
- The quiz timer and logout (src/pages/study/VocabularyPractice3.tsx:50-53): timers are not modelled.
- `useCurrentQuizNoVocaPractice` and `useStudentAnswer` are not part of this model. The resumed word number, the tries and the converted board are inputs to `Load`; the board is a sequence that answers are appended to.
- The loading screen: the practice is modelled after its data has arrived, so `CloseIntro` always finds data.
- `skipType` is a string, with `""` standing for the absent argument. Both are falsy.
- StorySideMenu: the close-menu animation with its 300 ms timer (lines 45-52) and the movie entry's click handler (lines 118-121), which closes the side menu and opens the movie, are not modelled; the entry's presence is (`BonusEntries`). Alerts are recorded as a list.
- Example: `Number(bookInfo.Average)` of a non-numeric string (NaN) is not modelled; the average is a real. The component that maps the examples to cards is not part of this model; `CardNumbers` assumes that it passes each card its position in the list as `index`.
- Styling, animations, Lottie, CSS classes and texts other than the labels above.
