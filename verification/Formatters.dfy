/** truncateText from the frontend's utils/formatters.js. */
module Formatters {
  /** The limit used when the caller gives none. */
  const DefaultMaxLength := 50

  const Ellipsis := "..."

  /** The end index String.prototype.substring(0, n) uses on a string of
      length `len`: negative bounds become 0 and large ones the length. */
  function ClampIndex(n: int, len: nat): (r: nat)
    ensures r <= len
    ensures 0 <= n <= len ==> r == n
  {
    if n < 0 then 0 else if n > len then len else n
  }

  /** A text no longer than the limit comes back unchanged; a longer one is
      cut to its first `maxLength` characters and "..." is appended. */
  function TruncateText(text: string, maxLength: int): (r: string)
    ensures |text| <= maxLength ==> r == text
    ensures |text| > maxLength ==> |r| == (if maxLength < 0 then 0 else maxLength) + |Ellipsis|
    ensures |text| > maxLength ==> r[..|r| - |Ellipsis|] == text[..|r| - |Ellipsis|] && r[|r| - |Ellipsis|..] == Ellipsis
  {
    if |text| <= maxLength then text
    else text[..ClampIndex(maxLength, |text|)] + Ellipsis
  }

  /** truncateText(text) with the default limit of 50. */
  function TruncateTextDefault(text: string): (r: string)
    ensures |text| <= DefaultMaxLength ==> r == text
    ensures |text| > DefaultMaxLength ==> |r| == DefaultMaxLength + 3 && r[..DefaultMaxLength] == text[..DefaultMaxLength]
  {
    TruncateText(text, DefaultMaxLength)
  }

  /** Whatever the limit, the result begins with a prefix of the text and is
      either the text itself or that prefix followed by "...". */
  lemma TruncatedStartsWithText(text: string, maxLength: int)
    ensures var r := TruncateText(text, maxLength);
      exists n | 0 <= n <= |text| :: r == text[..n] || r == text[..n] + Ellipsis
  {
    var r := TruncateText(text, maxLength);
    if |text| <= maxLength {
      assert r == text[..|text|];
    } else {
      assert r == text[..ClampIndex(maxLength, |text|)] + Ellipsis;
    }
  }

  /** For a non-negative limit the result is never longer than limit + 3,
      but it can be longer than the text: cutting a text one character over
      the limit adds two characters. */
  lemma TruncateLengthBound(text: string, maxLength: int)
    requires maxLength >= 0
    ensures |TruncateText(text, maxLength)| <= maxLength + 3
    ensures |TruncateText(text, maxLength)| == if |text| <= maxLength then |text| else maxLength + 3
  {
  }

  lemma TruncateCanLengthen()
    ensures var text := seq(DefaultMaxLength + 1, _ => 'a');
      |TruncateTextDefault(text)| == |text| + 2
  {
  }

  /** Truncating twice with the same limit gives the same text as truncating
      once: the kept prefix is the same and the ellipsis is cut and restored. */
  lemma TruncateIdempotent(text: string, maxLength: int)
    ensures TruncateText(TruncateText(text, maxLength), maxLength) == TruncateText(text, maxLength)
  {
    var r := TruncateText(text, maxLength);
    if |text| > maxLength {
      var n := ClampIndex(maxLength, |text|);
      assert r[..n] == text[..n];
      assert ClampIndex(maxLength, |r|) == n;
    }
  }
}
