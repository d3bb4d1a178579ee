/**
 * The timer consistency rule applied after every generation: a timer the
 * model returned survives only if the text itself mentions a duration, which
 * the source tests with the case-insensitive regular expression
 * /second|minute/i.
 */
module TimerPolicy {
  import opened Wrappers
  import opened JsStrings

  /** Position i of s, folded to lower case, spells out the lower-case word pat. */
  predicate MatchesAt(s: string, pat: string, i: int)
  {
    0 <= i && i + |pat| <= |s| && forall j :: 0 <= j < |pat| ==> LowerAscii(s[i + j]) == pat[j]
  }

  /**
   * The regular expression matches somewhere in s. Without the `u` flag a
   * non-ASCII character never folds onto an ASCII letter, so ASCII folding
   * is the whole of the case-insensitivity here.
   */
  predicate MentionsTime(s: string)
  {
    exists i :: 0 <= i <= |s| && (MatchesAt(s, "second", i) || MatchesAt(s, "minute", i))
  }

  /** The timer that survives post-processing. */
  function KeptTimer(text: string, timer: Option<int>): (r: Option<int>)
    ensures r == None <==> timer == None || !MentionsTime(text)
    ensures r != None ==> r == timer
  {
    if !MentionsTime(text) && timer.Some? then None else timer
  }

  /** A prompt without a duration word loses its timer. */
  lemma TellAJokeLosesTimer()
    ensures KeptTimer("Tell a joke", Some(30)) == None
  {
    var s := "Tell a joke";
    forall i | 0 <= i <= |s| ensures !MatchesAt(s, "second", i) && !MatchesAt(s, "minute", i) {
      if i + 6 <= |s| {
        assert LowerAscii(s[i + 0]) != "second"[0] && LowerAscii(s[i + 0]) != "minute"[0];
      }
    }
  }

  /** A prompt that names a duration, in any letter case, keeps its timer. */
  lemma PlankKeepsTimer()
    ensures KeptTimer("Plank for 30 SECONDS", Some(30)) == Some(30)
  {
    assert MatchesAt("Plank for 30 SECONDS", "second", 13);
  }
}
