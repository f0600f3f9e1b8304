/** The `summarizer` tool: truncate a text to a maximum length, marking the cut with "...". */
module Summarizer {

  /** The default of the `max_length` parameter. */
  const DefaultMaxLength: int := 100

  /** Where Python's slice `s[:stop]` ends on a string of length `len`: a negative
      `stop` counts from the back, and the result is clamped to `0..len`. */
  function SliceStop(len: nat, stop: int): (e: nat)
    ensures e <= len
  {
    if stop < 0 then (if len + stop < 0 then 0 else len + stop)
    else if stop > len then len
    else stop
  }

  /** `summarizer(text, max_length)`: the text itself when it fits, otherwise
      `text[:max_length - 3] + '...'` with Python's slice semantics. */
  function Summarize(text: string, maxLength: int := DefaultMaxLength): (r: string)
    ensures |text| <= maxLength ==> r == text
    ensures |text| > maxLength ==> 3 <= |r| <= |text| + 3 && r[|r| - 3..] == "..." && r[..|r| - 3] == text[..|r| - 3]
    ensures maxLength >= 3 ==> |r| <= maxLength
    ensures maxLength >= 3 && |text| > maxLength ==> r == text[..maxLength - 3] + "..." && |r| == maxLength
  {
    if |text| <= maxLength then text
    else text[..SliceStop(|text|, maxLength - 3)] + "..."
  }

  /** With the default limit the summary never exceeds 100 characters. */
  lemma DefaultSummaryFits(text: string)
    ensures |Summarize(text)| <= 100
    ensures |text| <= 100 ==> Summarize(text) == text
  {
  }

  /** For a limit of at least 3, summarizing twice is summarizing once. */
  lemma SummarizeIdempotent(text: string, maxLength: int)
    requires maxLength >= 3
    ensures Summarize(Summarize(text, maxLength), maxLength) == Summarize(text, maxLength)
  {
  }

  /** The length bound holds for every text exactly when the limit is at least 3. */
  lemma BoundHoldsIffLimitAtLeastThree(maxLength: int)
    ensures (forall text: string :: |Summarize(text, maxLength)| <= maxLength) <==> maxLength >= 3
  {
    if maxLength < 3 {
      var n: nat := if maxLength < 0 then 0 else maxLength + 1;
      var text := seq(n, _ => 'a');
      assert |Summarize(text, maxLength)| > maxLength;
    }
  }

  /** Below a limit of 3 every truncated summary is longer than the limit: the
      slice end `max_length - 3` is negative and counts from the back of the text. */
  lemma ShortLimitOverruns(text: string, maxLength: int)
    requires maxLength < 3 && |text| > maxLength
    ensures |Summarize(text, maxLength)| > maxLength
    ensures |Summarize(text, maxLength)| == (if |text| + maxLength - 3 < 0 then 0 else |text| + maxLength - 3) + 3
  {
  }

  /** The instance `summarizer("abcdef", 2) == "abcde..."`. */
  lemma ShortLimitExample()
    ensures Summarize("abcdef", 2) == "abcde..."
  {
    assert "abcdef"[..5] == "abcde";
  }
}
