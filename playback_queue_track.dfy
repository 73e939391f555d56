/** Title shortening in the dashboard's queue entries (playback-queue-track.tsx). */
module PlaybackQueueTrack {

  const ELLIPSIS: char := '\U{2026}'
  const DEFAULT_MAX_LENGTH: int := 20

  /** JavaScript `s.substring(0, end)`: the end is clamped to the range 0..|s|. */
  function SubstringTo(s: string, end: int): (r: string)
    ensures |r| == if end < 0 then 0 else if end > |s| then |s| else end
    ensures r <= s
  {
    if end < 0 then "" else if end > |s| then s else s[..end]
  }

  /**
   * `truncateString(string = "", maxLength = 20)`: a string longer than `maxLength`
   * becomes its first `maxLength` characters followed by an ellipsis.
   */
  function TruncateString(s: string := "", maxLength: int := DEFAULT_MAX_LENGTH): (r: string)
    ensures |s| <= maxLength ==> r == s
    ensures |s| > maxLength && maxLength >= 0 ==>
              |r| == maxLength + 1 && r[..maxLength] == s[..maxLength] && r[maxLength] == ELLIPSIS
    ensures |s| > maxLength && maxLength < 0 ==> r == [ELLIPSIS]
  {
    if |s| > maxLength then SubstringTo(s, maxLength) + [ELLIPSIS] else s
  }

  /** With no arguments the result is the empty string. */
  lemma DefaultArguments()
    ensures TruncateString() == ""
    ensures forall s :: |s| <= 20 ==> TruncateString(s) == s
  {
  }

  /** Truncating an already truncated string changes nothing. */
  lemma TruncateIdempotent(s: string, maxLength: int)
    ensures TruncateString(TruncateString(s, maxLength), maxLength) == TruncateString(s, maxLength)
  {
    if |s| > maxLength {
      var t := TruncateString(s, maxLength);
      if maxLength >= 0 {
        assert t[..maxLength] == s[..maxLength];
        assert SubstringTo(t, maxLength) == s[..maxLength];
      }
    }
  }
}
