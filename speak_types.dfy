/**
 * Data shared by the speaking-practice screens: the items fetched for a
 * session, the play-bar and audio states, the pronunciation score, and the
 * policy constants of the pass/retry rule.
 */
module SpeakTypes {

  datatype Option<T> = None | Some(value: T)

  /** The play-bar union `'' | 'playing-sentence' | 'recording' |
      'playing-user-audio' | 'correct' | 'incorrect'`; `Idle` is `''`. */
  datatype PlayBarState =
    | Idle
    | PlayingSentence
    | Recording
    | PlayingUserAudio
    | Correct
    | Incorrect

  /** The audio hook's play state: `''` (NotPlaying) or `'play'`. */
  datatype PlayState = NotPlaying | Playing

  /** The (page, sequence) pair the audio hook plays; the source spells the
      second field `sequnce`. */
  datatype PageSeq = PageSeq(playPage: int, sequence: int)

  /** One entry of `speakData`. `sentence` is `None` where the service sends
      `null`; entries with sequence 999 are page-turn markers. */
  datatype SpeakItem = SpeakItem(
    page: int,
    sequence: int,
    sentence: Option<string>,
    soundPath: string,
    contents: string,
    dataPath: string,
    quizNo: int,
    challengeNumber: int)

  /** One entry of the previously recorded progress used to resume. */
  datatype RecordedEntry = RecordedEntry(page: int, sequence: int)

  datatype PhonemeScore = PhonemeScore(phoneme: string, score: real)
  datatype WordScore = WordScore(word: string, phonemes: seq<PhonemeScore>)

  /** The scoring service's answer: an overall score and a per-word,
      per-phoneme breakdown. */
  datatype ScoreResult = ScoreResult(totalScore: real, words: seq<WordScore>)

  /** A recording passes at this overall score or above. */
  const PassScore: real := 70.0
  /** Number of attempts an item allows. */
  const MaxTries: int := 3
  /** Sequence number of the page-turn markers, which are skipped. */
  const PageTurnSequence: int := 999

  /**
   * `Array.prototype.findIndex`: the first index whose element satisfies
   * `p`, or -1 when there is none.
   */
  function FirstIndex<T>(s: seq<T>, p: T -> bool): (r: int)
    ensures -1 <= r < |s|
    ensures r == -1 ==> forall i :: 0 <= i < |s| ==> !p(s[i])
    ensures 0 <= r ==> p(s[r]) && forall i :: 0 <= i < r ==> !p(s[i])
  {
    if |s| == 0 then -1
    else if p(s[0]) then 0
    else
      var k := FirstIndex(s[1..], p);
      if k == -1 then -1 else k + 1
  }
}
