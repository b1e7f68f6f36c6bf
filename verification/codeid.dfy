/**
 * `strip_quotes`: drops one pair of surrounding double quotes from the text
 * a node returns for a code ID.
 */
module CodeIds {
  import opened Wrappers
  import opened Text

  /**
   * Strips a leading `"` and then a trailing `"`; when either is missing the
   * string comes back as it was.
   */
  function StripQuotes(s: string): (r: string)
    ensures |s| >= 2 && s[0] == '"' && s[|s| - 1] == '"' ==> r == s[1..|s| - 1]
    ensures !(|s| >= 2 && s[0] == '"' && s[|s| - 1] == '"') ==> r == s
  {
    match StripPrefix(s, "\"")
    case None => s
    case Some(inner) =>
      match StripSuffix(inner, '"')
      case None => s
      case Some(stripped) => stripped
  }

  /**
   * The result is a contiguous piece of the input, never longer, and only
   * one pair of quotes goes: what remains may itself be quoted.
   */
  lemma {:induction false} StripQuotesSubstring(s: string)
    ensures exists i, j :: 0 <= i <= j <= |s| && StripQuotes(s) == s[i..j]
    ensures |StripQuotes(s)| <= |s|
    ensures |StripQuotes(s)| == |s| || |StripQuotes(s)| == |s| - 2
  {
    if |s| >= 2 && s[0] == '"' && s[|s| - 1] == '"' {
      assert StripQuotes(s) == s[1..|s| - 1];
    } else {
      assert StripQuotes(s) == s[0..|s|];
    }
  }

  /** The cases written out: a lone quote, an empty pair, and a doubly quoted string. */
  lemma StripQuotesExamples()
    ensures StripQuotes("\"") == "\""
    ensures StripQuotes("\"\"") == ""
    ensures StripQuotes("\"\"x\"\"") == "\"x\""
    ensures StripQuotes("abc\"") == "abc\""
    ensures StripQuotes("\"abc") == "\"abc"
  {
    assert "\"\"x\"\""[1..4] == "\"x\"";
  }
}
