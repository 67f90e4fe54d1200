/** String helpers: truncation with an ellipsis, capitalising the first
    letter, and JSON parsing that falls back instead of throwing. */
module Utils {
  import opened Common

  /** `String.prototype.slice(0, end)`: a negative end counts back from the
      end of the string, and the result is clamped to the string. */
  function SliceTo(s: string, end: int): (r: string)
    ensures r <= s
    ensures 0 <= end <= |s| ==> |r| == end
    ensures end < 0 ==> |r| == if |s| + end < 0 then 0 else |s| + end
    ensures end > |s| ==> r == s
  {
    if end < 0 then (if |s| + end < 0 then [] else s[..|s| + end])
    else if end <= |s| then s[..end]
    else s
  }

  /** `truncate(str, length)` */
  function Truncate(s: string, length: int): (r: string)
    ensures |s| <= length ==> r == s
    ensures 0 <= length < |s| ==> r == s[..length] + "..." && |r| == length + 3
    ensures length < 0 ==> r == SliceTo(s, length) + "..."
    ensures |s| > length ==> r[|r| - 3..] == "..." && r[..|r| - 3] <= s
  {
    if |s| <= length then s else SliceTo(s, length) + "..."
  }

  /** Truncating lengthens the string whenever it cuts fewer than three
      characters: the ellipsis is appended without making room for it. */
  lemma TruncateCanLengthen(s: string, length: int)
    requires 0 <= length < |s|
    ensures |Truncate(s, length)| > |s| <==> length > |s| - 3
  {
  }

  /** Truncating a truncated string to the same length with room for the
      ellipsis changes nothing. */
  lemma TruncateFits(s: string, length: nat)
    ensures |Truncate(s, length)| <= length + 3
    ensures Truncate(Truncate(s, length), length + 3) == Truncate(s, length)
  {
  }

  predicate IsAscii(c: char) {
    c < 128 as char
  }

  /** `toUpperCase` on one ASCII character. */
  function UpperAscii(c: char): (r: char)
    requires IsAscii(c)
    ensures IsAscii(r)
    ensures 'a' <= c <= 'z' ==> r as int == c as int - 32 && 'A' <= r <= 'Z'
    ensures !('a' <= c <= 'z') ==> r == c
  {
    if 'a' <= c <= 'z' then (c as int - 32) as char else c
  }

  /** `capitalize(str)`, for strings whose first character is ASCII. */
  function Capitalize(s: string): (r: string)
    requires s == "" || IsAscii(s[0])
    ensures |r| == |s|
    ensures s != "" ==> r[0] == UpperAscii(s[0]) && r[1..] == s[1..]
    ensures r != "" ==> IsAscii(r[0]) && !('a' <= r[0] <= 'z')
  {
    if s == "" then "" else [UpperAscii(s[0])] + s[1..]
  }

  /** Capitalising twice is capitalising once. */
  lemma CapitalizeIdempotent(s: string)
    requires s == "" || IsAscii(s[0])
    ensures Capitalize(Capitalize(s)) == Capitalize(s)
  {
  }

  /** `safeJsonParse(value, fallback)`. `parse` is `JSON.parse`, None
      standing for the exception it throws on malformed text. */
  function SafeJsonParse<T>(value: Option<string>, fallback: T, parse: string -> Option<T>): (r: T)
    ensures value.None? || value == Some("") ==> r == fallback
    ensures value.Some? && value.value != "" && parse(value.value).Some? ==> r == parse(value.value).value
    ensures value.Some? && value.value != "" && parse(value.value).None? ==> r == fallback
  {
    if value.None? || value.value == "" then fallback
    else match parse(value.value)
      case Some(v) => v
      case None => fallback
  }
}
