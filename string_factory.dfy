/**
 * StringFactory.PrefixWithEllipsis: shortening a text by keeping its end and
 * putting "..." in front. The code as written keeps too much of the text (see
 * PrefixWithEllipsisOverlong); PrefixWithEllipsisCorrected is the evident intent.
 */
module StringFactory {
  import opened Geometry

  function Max(a: int, b: int): int
  {
    if a < b then b else a
  }

  /**
   * PrefixWithEllipsis as written. None stands for the ArgumentOutOfRangeException
   * Substring throws when the start index passes the end of the text.
   */
  function PrefixWithEllipsis(text: string, length: int): (r: Option<string>)
    ensures |text| <= length ==> r == Some(text)
    ensures r.None? <==> |text| > length && (|text| < 2 || length < -3)
    ensures r.Some? && |text| > length ==>
              && |r.value| == 3 + |text| - Max(2, |text| - length - 3)
              && r.value[..3] == "..."
              && r.value[3..] == text[|text| - (|r.value| - 3)..]
  {
    if |text| <= length then Some(text)
    else
      var start := Max(2, |text| - length - 3);
      if start > |text| then None else Some("..." + text[start..])
  }

  /**
   * As written, a text at least `length` + 5 characters long comes out
   * `length` + 6 characters long: six more than asked for.
   */
  lemma PrefixWithEllipsisOverlong(text: string, length: int)
    requires length >= 0 && |text| - length - 3 >= 2
    ensures PrefixWithEllipsis(text, length).Some?
    ensures |PrefixWithEllipsis(text, length).value| == length + 6
  {
  }

  /**
   * "abcdefghij" shortened to 5 characters gives "...cdefghij": eleven
   * characters, longer even than the text it was meant to shorten.
   */
  lemma PrefixWithEllipsisExample()
    ensures PrefixWithEllipsis("abcdefghij", 5) == Some("...cdefghij")
    ensures |PrefixWithEllipsis("abcdefghij", 5).value| > |"abcdefghij"|
  {
    assert Max(2, 10 - 5 - 3) == 2;
    assert "abcdefghij"[2..] == "cdefghij";
    assert "..." + "cdefghij" == "...cdefghij";
  }

  /**
   * The evident intent: a text longer than `length` becomes "..." followed by
   * its last `length` - 3 characters (just "..." when `length` is under 3).
   */
  function PrefixWithEllipsisCorrected(text: string, length: int): (r: string)
    ensures |text| <= length ==> r == text
    ensures |text| > length ==>
              && |r| == 3 + Max(0, length - 3)
              && r[..3] == "..."
              && r[3..] == text[|text| - (|r| - 3)..]
    ensures |r| <= Max(length, 3)
  {
    if |text| <= length then text
    else "..." + text[|text| - Max(0, length - 3)..]
  }

  /** The corrected version never exceeds the text's own length when it shortens and `length` >= 3. */
  lemma CorrectedNeverLonger(text: string, length: int)
    requires length >= 3
    ensures |PrefixWithEllipsisCorrected(text, length)| <= |text|
    ensures |text| > length ==> |PrefixWithEllipsisCorrected(text, length)| == length
  {
  }
}
