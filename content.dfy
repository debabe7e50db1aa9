/**
 * The e-book area of the speaking page: one page on a phone, a two-page
 * spread on a desktop.
 */
module Content {

  /** `pageNumber % 2 === 0`. JavaScript's `%` truncates, so for a negative
      odd number it gives -1 where Dafny's gives 1; both differ from 0, so the
      evenness test is the same in both languages. */
  predicate IsEvenPage(pageNumber: int) {
    pageNumber % 2 == 0
  }

  function LeftPage(pageNumber: int): int {
    if IsEvenPage(pageNumber) then pageNumber - 1 else pageNumber
  }

  function RightPage(pageNumber: int): int {
    if IsEvenPage(pageNumber) then pageNumber else pageNumber + 1
  }

  /** The pages shown, left to right. */
  function ShownPages(pageNumber: int, isMobile: bool): (pages: seq<int>)
    ensures isMobile ==> pages == [pageNumber]
    ensures !isMobile ==> |pages| == 2 && pages[1] == pages[0] + 1
    ensures pageNumber in pages
    ensures !isMobile ==> pages[0] % 2 == 1
  {
    if isMobile then [pageNumber] else [LeftPage(pageNumber), RightPage(pageNumber)]
  }

  /** Every page of a spread shows the same spread: the pairing is
      (1, 2), (3, 4), ... */
  lemma SpreadIsShared(pageNumber: int)
    ensures ShownPages(LeftPage(pageNumber), false) == ShownPages(pageNumber, false)
    ensures ShownPages(RightPage(pageNumber), false) == ShownPages(pageNumber, false)
  {
  }
}
