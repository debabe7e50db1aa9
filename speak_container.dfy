/**
 * The speaking container: it owns the try count, the quiz index and the
 * play-bar state, and computes where a session resumes.
 */
module SpeakContainer {
  import opened SpeakTypes

  /** An item the resume search may stop at. */
  predicate IsSpeakable(item: SpeakItem) {
    item.contents != "" && item.dataPath != ""
  }

  /** The item that a recorded entry refers to. */
  predicate MatchesRecord(item: SpeakItem, rec: RecordedEntry) {
    item.page == rec.page && item.sequence == rec.sequence && item.dataPath != ""
  }

  /** There is a speakable item at or after `start`. */
  predicate SpeakableFrom(items: seq<SpeakItem>, start: int) {
    exists j :: start <= j < |items| && 0 <= j && IsSpeakable(items[j])
  }

  /**
   * Where the resume search starts: 0 without recorded progress, otherwise
   * one past the first item matching the last recorded entry; when nothing
   * matches, `findIndex` gives -1 and the search starts at 0.
   */
  function ResumeStart(items: seq<SpeakItem>, recorded: seq<RecordedEntry>): (start: nat)
    ensures start <= |items|
    ensures |recorded| == 0 ==> start == 0
    ensures |recorded| > 0 && start == 0 ==>
      forall i :: 0 <= i < |items| ==> !MatchesRecord(items[i], recorded[|recorded| - 1])
    ensures start > 0 ==>
      |recorded| > 0 &&
      MatchesRecord(items[start - 1], recorded[|recorded| - 1]) &&
      forall i :: 0 <= i < start - 1 ==> !MatchesRecord(items[i], recorded[|recorded| - 1])
  {
    if |recorded| > 0 then
      var last := recorded[|recorded| - 1];
      FirstIndex(items, (d: SpeakItem) => MatchesRecord(d, last)) + 1
    else
      0
  }

  /**
   * The `while (true)` loop of the resume effect: step forward from `start`
   * until a speakable item is found. The source has no bounds check, so a
   * speakable item at or after `start` must exist.
   */
  method FindSpeakableFrom(items: seq<SpeakItem>, start: nat) returns (index: nat)
    requires SpeakableFrom(items, start)
    ensures FirstSpeakableFrom(items, start) == Some(index)
    ensures start <= index < |items|
    ensures IsSpeakable(items[index])
    ensures forall j :: start <= j < index ==> !IsSpeakable(items[j])
  {
    index := start;
    while true
      invariant start <= index
      invariant SpeakableFrom(items, index)
      invariant forall j :: start <= j < index ==> !IsSpeakable(items[j])
      decreases |items| - index
    {
      if IsSpeakable(items[index]) {
        break;
      }
      index := index + 1;
    }
  }

  /**
   * The resume search with a bounds check: the first speakable index at or
   * after `start`, or `None` when the items run out first. The `while
   * (true)` loop above has no such exit.
   */
  function FirstSpeakableFrom(items: seq<SpeakItem>, start: nat): (r: Option<nat>)
    ensures r.None? <==> !SpeakableFrom(items, start)
    ensures r.Some? ==>
      start <= r.value < |items| && IsSpeakable(items[r.value]) &&
      forall j :: start <= j < r.value ==> !IsSpeakable(items[j])
    decreases |items| - start
  {
    if start >= |items| then None
    else if IsSpeakable(items[start]) then Some(start)
    else FirstSpeakableFrom(items, start + 1)
  }

  /**
   * A learner whose last recording is the book's last item: the search
   * starts one past the end, no speakable item is left, and the loop reads
   * `speakData[2]`, which is undefined.
   */
  lemma ResumeRunsPastTheEnd()
    ensures var items := [
        SpeakItem(1, 1, Some("Hello."), "s1.mp3", "Hello.", "d1", 1, 1),
        SpeakItem(1, 2, Some("Bye."), "s2.mp3", "Bye.", "d2", 2, 1)];
      var recorded := [RecordedEntry(1, 1), RecordedEntry(1, 2)];
      ResumeStart(items, recorded) == |items| &&
      !SpeakableFrom(items, ResumeStart(items, recorded)) &&
      FirstSpeakableFrom(items, ResumeStart(items, recorded)).None?
  {
    var items := [
        SpeakItem(1, 1, Some("Hello."), "s1.mp3", "Hello.", "d1", 1, 1),
        SpeakItem(1, 2, Some("Bye."), "s2.mp3", "Bye.", "d2", 2, 1)];
    var recorded := [RecordedEntry(1, 1), RecordedEntry(1, 2)];
    var start := ResumeStart(items, recorded);
    assert MatchesRecord(items[1], recorded[1]);
    assert !MatchesRecord(items[0], recorded[1]);
    assert start == 2;
  }

  class SpeakContainer {
    const speakData: seq<SpeakItem>
    var tryCount: int
    var quizIndex: int
    var playBarState: PlayBarState

    /** The initial component state, once the items have been fetched. */
    constructor (speakData: seq<SpeakItem>)
      ensures this.speakData == speakData
      ensures tryCount == 0 && quizIndex == 0 && playBarState == Idle
    {
      this.speakData := speakData;
      tryCount := 0;
      quizIndex := 0;
      playBarState := Idle;
    }

    /**
     * The effect that runs when the items arrive: the quiz index becomes the
     * first speakable item at or after `ResumeStart`.
     */
    method Resume(recorded: seq<RecordedEntry>)
      requires SpeakableFrom(speakData, ResumeStart(speakData, recorded))
      modifies this
      ensures ResumeStart(speakData, recorded) <= quizIndex < |speakData|
      ensures IsSpeakable(speakData[quizIndex])
      ensures forall j :: ResumeStart(speakData, recorded) <= j < quizIndex ==> !IsSpeakable(speakData[j])
      ensures tryCount == old(tryCount) && playBarState == old(playBarState)
    {
      var start := ResumeStart(speakData, recorded);
      var next := FindSpeakableFrom(speakData, start);
      quizIndex := next;
    }

    method ChangeQuizIndex(index: int)
      modifies this
      ensures quizIndex == index
      ensures tryCount == old(tryCount) && playBarState == old(playBarState)
    {
      quizIndex := index;
    }

    method ChangePlayBarState(state: PlayBarState)
      modifies this
      ensures playBarState == state
      ensures tryCount == old(tryCount) && quizIndex == old(quizIndex)
    {
      playBarState := state;
    }

    method IncreaseTryCount()
      modifies this
      ensures tryCount == old(tryCount) + 1
      ensures quizIndex == old(quizIndex) && playBarState == old(playBarState)
    {
      tryCount := tryCount + 1;
    }

    method ResetTryCount()
      modifies this
      ensures tryCount == 0
      ensures quizIndex == old(quizIndex) && playBarState == old(playBarState)
    {
      tryCount := 0;
    }
  }
}
