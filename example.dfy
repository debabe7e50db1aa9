/**
 * One answer card of the fourth vocabulary test: its highlight in review
 * mode, its number and the answer a click selects.
 */
module Example {

  datatype ExampleData = ExampleData(text: string)

  /** The card is marked correct in review mode, for a book whose average is
      at least 70, when its text is the correct answer. */
  predicate IsHighlighted(mode: string, average: real, card: ExampleData, correctText: string) {
    mode == "Review" && average >= 70.0 && card.text == correctText
  }

  /** The number printed on the card at `index`. */
  function CardNumber(index: int): int {
    index + 1
  }

  /** The numbers printed on a row of cards, in order: the cards are
      numbered 1 to n, increasing, with no number missing or repeated. */
  function CardNumbers(cards: seq<ExampleData>): (numbers: seq<int>)
    ensures |numbers| == |cards|
    ensures forall i :: 0 <= i < |numbers| ==> numbers[i] == i + 1
    ensures forall i, j :: 0 <= i < j < |numbers| ==> numbers[i] < numbers[j]
    ensures forall k :: k in numbers <==> 1 <= k <= |cards|
  {
    var numbers := seq(|cards|, i => CardNumber(i));
    assert forall k | 1 <= k <= |cards| :: k in numbers by {
      forall k | 1 <= k <= |cards|
        ensures k in numbers
      {
        assert numbers[k - 1] == k;
      }
    }
    numbers
  }

  /** The answer handed to `checkAnswer` on a click. */
  function SelectedAnswer(card: ExampleData): string {
    card.text
  }

  /** Outside review mode no card is highlighted; in review mode a card is
      highlighted exactly when the average allows it and its text is the
      correct one, which is also the answer its click would submit. */
  lemma HighlightOnlyInReview(mode: string, average: real, card: ExampleData, correctText: string)
    ensures mode != "Review" ==> !IsHighlighted(mode, average, card, correctText)
    ensures IsHighlighted(mode, average, card, correctText) <==>
      mode == "Review" && average >= 70.0 && SelectedAnswer(card) == correctText
  {
  }

  /** Among cards with distinct texts at most one is highlighted. */
  lemma AtMostOneHighlighted(mode: string, average: real, cards: seq<ExampleData>, correctText: string, i: int, j: int)
    requires forall a, b :: 0 <= a < b < |cards| ==> cards[a].text != cards[b].text
    requires 0 <= i < |cards| && 0 <= j < |cards|
    requires IsHighlighted(mode, average, cards[i], correctText)
    requires IsHighlighted(mode, average, cards[j], correctText)
    ensures i == j
  {
  }

  /** In review mode, for a book with a passing average, among cards with
      distinct texts the card whose click submits the correct answer is the
      highlighted one, and no other card is. */
  lemma ReviewHighlightsTheCorrectClick(mode: string, average: real, cards: seq<ExampleData>, correctText: string, i: int)
    requires mode == "Review" && average >= 70.0
    requires forall a, b :: 0 <= a < b < |cards| ==> cards[a].text != cards[b].text
    requires 0 <= i < |cards| && SelectedAnswer(cards[i]) == correctText
    ensures IsHighlighted(mode, average, cards[i], correctText)
    ensures forall j :: 0 <= j < |cards| && j != i ==> !IsHighlighted(mode, average, cards[j], correctText)
  {
    forall j | 0 <= j < |cards| && j != i
      ensures !IsHighlighted(mode, average, cards[j], correctText)
    {
      if j < i {
        assert cards[j].text != cards[i].text;
      } else {
        assert cards[i].text != cards[j].text;
      }
    }
  }
}
