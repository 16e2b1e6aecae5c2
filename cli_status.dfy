// The `truncate` helper of the `hortator status` command (cmd/hortator/cmd/status.go).
module CliStatus {

  /** Shortens `s` to `maxLen` characters, the last three of which become "...".
      Go's slice `s[:maxLen-3]` panics when `maxLen < 3` and `s` is longer than `maxLen`,
      so such calls are excluded; the command itself passes 60 and 40. */
  function Truncate(s: string, maxLen: int): (r: string)
    requires |s| <= maxLen || maxLen >= 3
    ensures |s| <= maxLen ==> r == s
    ensures |s| > maxLen ==> |r| == maxLen && r[..maxLen - 3] == s[..maxLen - 3] && r[maxLen - 3..] == "..."
  {
    if |s| <= maxLen then s else s[..maxLen - 3] + "..."
  }

  /** The result never exceeds the limit, and a truncated result is a strict shortening. */
  lemma TruncateBound(s: string, maxLen: int)
    requires |s| <= maxLen || maxLen >= 3
    ensures |Truncate(s, maxLen)| <= maxLen && |Truncate(s, maxLen)| <= |s|
  {
  }

  /** Truncating an already truncated string changes nothing. */
  lemma TruncateIdempotent(s: string, maxLen: int)
    requires |s| <= maxLen || maxLen >= 3
    ensures Truncate(Truncate(s, maxLen), maxLen) == Truncate(s, maxLen)
  {
  }
}
