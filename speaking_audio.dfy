/**
 * The speaking audio hook: one audio player reused for the whole session,
 * its play state and the (page, sequence) pair it plays.
 */
module SpeakingAudio {
  import opened SpeakTypes
  import SpeakContainer

  /** The hook's state: play state, current (page, sequence), and the single
      player's `src` and `currentTime`. */
  datatype Player = Player(playState: PlayState, pageSeq: PageSeq, src: string, currentTime: real)

  predicate IsSentenceAt(item: SpeakItem, page: int, sequence: int) {
    item.page == page && item.sequence == sequence
  }

  /** Index of the item `speakData.find` picks for (page, sequence), or -1. */
  function SentenceIndex(items: seq<SpeakItem>, page: int, sequence: int): int {
    FirstIndex(items, (d: SpeakItem) => IsSentenceAt(d, page, sequence))
  }

  /**
   * `playAudio(pageNumber, seq)`: only when nothing plays, point the player
   * at the sound of the item on page `pageNumber` whose sequence is the
   * hook's CURRENT `pageSeq.sequence` (the `sequence` argument is unused);
   * without such an item the source is cleared and rewound.
   */
  function Play(p: Player, items: seq<SpeakItem>, pageNumber: int, sequence: int): Player {
    if p.playState != NotPlaying then p
    else
      var k := SentenceIndex(items, pageNumber, p.pageSeq.sequence);
      if k >= 0 then p.(src := items[k].soundPath)
      else p.(src := "", currentTime := 0.0)
  }

  /** `stopAudio`: clear and rewind the player and mark it not playing. */
  function Stop(p: Player): Player {
    p.(src := "", currentTime := 0.0, playState := NotPlaying)
  }

  /** `changePageSeq(page, seq)`. */
  function SetPageSeq(p: Player, page: int, sequence: int): Player {
    p.(pageSeq := PageSeq(page, sequence))
  }

  /**
   * The effect keyed on `pageSeq`: the previous run's cleanup stops the
   * player, then `playAudio` runs with the play state of the render that
   * changed `pageSeq` (the closure it captured), not the stopped one.
   */
  function AutoPlay(p: Player, items: seq<SpeakItem>): Player {
    var stopped := Stop(p);
    if p.playState == NotPlaying then Play(stopped, items, p.pageSeq.playPage, p.pageSeq.sequence)
    else stopped
  }

  /** While audio plays, `playAudio` changes nothing. */
  lemma PlayIgnoredWhilePlaying(p: Player, items: seq<SpeakItem>, pageNumber: int, sequence: int)
    requires p.playState == Playing
    ensures Play(p, items, pageNumber, sequence) == p
  {
  }

  /**
   * When nothing plays, `playAudio` picks the FIRST item on page
   * `pageNumber` with the hook's current sequence and takes its sound;
   * without one it clears and rewinds. Only `src` and `currentTime` change.
   */
  lemma PlaySelectsFirstMatch(p: Player, items: seq<SpeakItem>, pageNumber: int, sequence: int)
    requires p.playState == NotPlaying
    ensures var q := Play(p, items, pageNumber, sequence);
      && q.playState == p.playState && q.pageSeq == p.pageSeq
      && ((exists k :: 0 <= k < |items| && IsSentenceAt(items[k], pageNumber, p.pageSeq.sequence)
             && (forall j :: 0 <= j < k ==> !IsSentenceAt(items[j], pageNumber, p.pageSeq.sequence))
             && q.src == items[k].soundPath && q.currentTime == p.currentTime)
          || ((forall j :: 0 <= j < |items| ==> !IsSentenceAt(items[j], pageNumber, p.pageSeq.sequence))
             && q.src == "" && q.currentTime == 0.0))
  {
    var k := SentenceIndex(items, pageNumber, p.pageSeq.sequence);
    if k >= 0 {
      assert IsSentenceAt(items[k], pageNumber, p.pageSeq.sequence);
    }
  }

  /** The `seq` argument of `playAudio` has no effect. */
  lemma PlayIgnoresSequenceArgument(p: Player, items: seq<SpeakItem>, pageNumber: int, s1: int, s2: int)
    ensures Play(p, items, pageNumber, s1) == Play(p, items, pageNumber, s2)
  {
  }

  /** `stopAudio` leaves the player cleared, rewound and idle from any state,
      keeps `pageSeq`, and a second stop changes nothing. */
  lemma StopIsIdempotent(p: Player)
    ensures Stop(p).src == "" && Stop(p).currentTime == 0.0 && Stop(p).playState == NotPlaying
    ensures Stop(p).pageSeq == p.pageSeq
    ensures Stop(Stop(p)) == Stop(p)
  {
  }

  /** `changePageSeq` sets exactly the pair it is given. */
  lemma SetPageSeqExact(p: Player, page: int, sequence: int)
    ensures SetPageSeq(p, page, sequence).pageSeq == PageSeq(page, sequence)
    ensures SetPageSeq(p, page, sequence).(pageSeq := p.pageSeq) == p
  {
  }

  /**
   * A new `pageSeq` always silences the player; it loads the new item's
   * sound only if nothing was playing when `pageSeq` changed, so changing
   * items while a sentence plays leaves the player stopped.
   */
  lemma AutoPlayFollowsStalePlayState(p: Player, items: seq<SpeakItem>)
    ensures AutoPlay(p, items).playState == NotPlaying && AutoPlay(p, items).pageSeq == p.pageSeq
    ensures p.playState == Playing ==> AutoPlay(p, items).src == "" && AutoPlay(p, items).currentTime == 0.0
    ensures p.playState == NotPlaying ==>
      var k := SentenceIndex(items, p.pageSeq.playPage, p.pageSeq.sequence);
      AutoPlay(p, items).src == (if k >= 0 then items[k].soundPath else "")
  {
  }

  class SpeakingAudio {
    const speakData: seq<SpeakItem>
    var playState: PlayState
    var pageSeq: PageSeq
    var src: string
    var currentTime: real

    ghost function Model(): Player
      reads this
    {
      Player(playState, pageSeq, src, currentTime)
    }

    /** Mounting the hook: a fresh player, nothing playing, `pageSeq` taken
        from the item at the current quiz index. */
    constructor (speakData: seq<SpeakItem>, quizIndex: int)
      requires 0 <= quizIndex < |speakData|
      ensures this.speakData == speakData
      ensures Model() == Player(NotPlaying, PageSeq(speakData[quizIndex].page, speakData[quizIndex].sequence), "", 0.0)
    {
      this.speakData := speakData;
      playState := NotPlaying;
      pageSeq := PageSeq(speakData[quizIndex].page, speakData[quizIndex].sequence);
      src := "";
      currentTime := 0.0;
    }

    method PlayAudio(pageNumber: int, sequence: int)
      modifies this
      ensures Model() == Play(old(Model()), speakData, pageNumber, sequence)
    {
      if playState == NotPlaying {
        var k := SentenceIndex(speakData, pageNumber, pageSeq.sequence);
        if k >= 0 {
          src := speakData[k].soundPath;
        } else {
          src := "";
          currentTime := 0.0;
        }
      }
    }

    method StopAudio()
      modifies this
      ensures Model() == Stop(old(Model()))
    {
      src := "";
      currentTime := 0.0;
      playState := NotPlaying;
    }

    method ChangePageSeq(page: int, sequence: int)
      modifies this
      ensures Model() == SetPageSeq(old(Model()), page, sequence)
    {
      pageSeq := PageSeq(page, sequence);
    }

    /** The effect keyed on `pageSeq` (cleanup, then autoplay). */
    method OnPageSeqChanged()
      modifies this
      ensures Model() == AutoPlay(old(Model()), speakData)
    {
      var wasIdle := playState == NotPlaying;
      StopAudio();
      if wasIdle {
        // the captured play state was idle, so playAudio goes ahead
        PlayAudio(pageSeq.playPage, pageSeq.sequence);
      }
    }

    /**
     * The effect keyed on the quiz index: a page-turn marker (sequence 999)
     * moves the index on by one and leaves `pageSeq` alone; any other item
     * becomes the (page, sequence) to play.
     */
    method OnQuizIndexChanged(container: SpeakContainer.SpeakContainer)
      requires 0 <= container.quizIndex < |speakData|
      modifies this, container
      ensures var item := speakData[old(container.quizIndex)];
        if item.sequence == PageTurnSequence then
          container.quizIndex == old(container.quizIndex) + 1 && Model() == old(Model())
        else
          container.quizIndex == old(container.quizIndex) && Model() == SetPageSeq(old(Model()), item.page, item.sequence)
      ensures container.tryCount == old(container.tryCount)
      ensures container.playBarState == old(container.playBarState)
    {
      var item := speakData[container.quizIndex];
      if item.sequence == PageTurnSequence {
        container.ChangeQuizIndex(container.quizIndex + 1);
      } else {
        pageSeq := PageSeq(item.page, item.sequence);
      }
    }

    /** `canplaythrough`: audio is playing and the bar shows it. */
    method OnCanPlayThrough(container: SpeakContainer.SpeakContainer)
      modifies this, container
      ensures Model() == old(Model()).(playState := Playing)
      ensures container.playBarState == PlayingSentence
      ensures container.tryCount == old(container.tryCount) && container.quizIndex == old(container.quizIndex)
    {
      playState := Playing;
      container.ChangePlayBarState(PlayingSentence);
    }

    /** `ended`: audio is idle and the bar returns to its default. */
    method OnEnded(container: SpeakContainer.SpeakContainer)
      modifies this, container
      ensures Model() == old(Model()).(playState := NotPlaying)
      ensures container.playBarState == Idle
      ensures container.tryCount == old(container.tryCount) && container.quizIndex == old(container.quizIndex)
    {
      playState := NotPlaying;
      container.ChangePlayBarState(Idle);
    }
  }
}
