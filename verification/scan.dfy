/**
 * The backward scan `indexOfPreviousNonLetterDigit` of SocialViewImpl.
 * `isLetterOrDigit` stands for `Character.isLetterOrDigit`, left uninterpreted.
 */
module Scan {

  /**
   * The greatest index `i` with `start < i <= end` whose character is not a
   * letter or digit, or `start` when there is none: index `start` itself is
   * never inspected.
   */
  function IndexOfPreviousNonLetterDigit(text: string, start: nat, end: int, isLetterOrDigit: char -> bool): (r: nat)
    requires end <= start || end < |text|
    ensures start <= r
    ensures r == start || (r <= end && !isLetterOrDigit(text[r]))
    ensures forall i :: r < i <= end ==> isLetterOrDigit(text[i])
    decreases end - start
  {
    if end <= start then start
    else if !isLetterOrDigit(text[end]) then end
    else IndexOfPreviousNonLetterDigit(text, start, end - 1, isLetterOrDigit)
  }
}
