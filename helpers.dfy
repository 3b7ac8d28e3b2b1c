/** Text truncation (utils/helpers.py). */
module Helpers {
  import opened Text

  /**
   * `truncate_text`: the text itself when it fits, else `text[:max_length - 3] + "..."` with
   * Python's slice semantics, so that a `maxLength` below 3 cuts from the end and gives a
   * result longer than `maxLength`.
   */
  function TruncateText(text: string, maxLength: int): (r: string)
    ensures |text| <= maxLength ==> r == text
    ensures |text| > maxLength && maxLength >= 3 ==>
      |r| == maxLength && r[..maxLength - 3] == text[..maxLength - 3] && r[maxLength - 3..] == "..."
    ensures |text| > maxLength && maxLength < 3 ==>
      && |r| == (if |text| + maxLength - 3 < 0 then 0 else |text| + maxLength - 3) + 3
      && |r| > maxLength && r[|r| - 3..] == "..." && r[..|r| - 3] == text[..|r| - 3]
  {
    if |text| <= maxLength then text
    else PySliceTo(text, maxLength - 3) + "..."
  }

  /** Truncating twice to the same length changes nothing the second time, for lengths from 3 on. */
  lemma TruncateIdempotent(text: string, maxLength: int)
    requires maxLength >= 3
    ensures TruncateText(TruncateText(text, maxLength), maxLength) == TruncateText(text, maxLength)
  {
  }

  /** A concrete case of the short-limit behaviour: limit 1 on a five-character text gives six. */
  lemma ShortLimitGrows()
    ensures TruncateText("abcde", 1) == "abc..."
  {
    assert PyBound(5, -2) == 3;
    assert "abcde"[..3] == "abc";
  }
}
