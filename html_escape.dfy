/**
 * `html.escape(s)` (quote=True), as `generate_html_inline_css` applies it to
 * every embedded string (rss_bot.py lines 214-215 and 230-232), and the
 * summary formatting `html.escape(summary).replace('\n', '<br>')`.
 */
module HtmlEscape {

  /** The characters `html.escape` rewrites as entities. */
  predicate Special(c: char)
  {
    c == '&' || c == '<' || c == '>' || c == '"' || c == '\''
  }

  /** Characters that may not appear raw in markup built around escaped text. */
  predicate Raw(c: char)
  {
    c == '<' || c == '>' || c == '"' || c == '\''
  }

  function EscapeChar(c: char): string
  {
    if c == '&' then "&amp;"
    else if c == '<' then "&lt;"
    else if c == '>' then "&gt;"
    else if c == '"' then "&quot;"
    else if c == '\'' then "&#x27;"
    else [c]
  }

  /** `html.escape(s, quote=True)`: each special character replaced by its entity. */
  function Escape(s: string): (r: string)
    ensures forall k :: 0 <= k < |r| ==> !Raw(r[k])
  {
    if s == [] then [] else EscapeChar(s[0]) + Escape(s[1..])
  }

  function StartsWith(s: string, p: string): bool
  {
    |p| <= |s| && s[..|p|] == p
  }

  /** Decoding of the five entities `Escape` produces; every other character is kept. */
  function Unescape(s: string): string
    decreases |s|
  {
    if s == [] then []
    else if StartsWith(s, "&amp;") then "&" + Unescape(s[5..])
    else if StartsWith(s, "&lt;") then "<" + Unescape(s[4..])
    else if StartsWith(s, "&gt;") then ">" + Unescape(s[4..])
    else if StartsWith(s, "&quot;") then "\"" + Unescape(s[6..])
    else if StartsWith(s, "&#x27;") then "'" + Unescape(s[6..])
    else [s[0]] + Unescape(s[1..])
  }

  lemma UnescapeEntity(e: string, c: char, rest: string)
    requires e == EscapeChar(c)
    ensures Unescape(e + rest) == [c] + Unescape(rest)
  {
    var s := e + rest;
    assert |e| > 1 ==> s[1] == e[1];
    if c == '&' {
      assert s[..5] == "&amp;" && s[5..] == rest;
    } else if c == '<' {
      assert s[..4] == "&lt;" && s[4..] == rest;
      assert !StartsWith(s, "&amp;");
    } else if c == '>' {
      assert s[..4] == "&gt;" && s[4..] == rest;
      assert !StartsWith(s, "&amp;") && !StartsWith(s, "&lt;");
    } else if c == '"' {
      assert s[..6] == "&quot;" && s[6..] == rest;
      assert !StartsWith(s, "&amp;") && !StartsWith(s, "&lt;") && !StartsWith(s, "&gt;");
    } else if c == '\'' {
      assert s[..6] == "&#x27;" && s[6..] == rest;
      assert !StartsWith(s, "&amp;") && !StartsWith(s, "&lt;") && !StartsWith(s, "&gt;");
      assert !StartsWith(s, "&quot;");
    } else {
      assert s[0] == c && s[1..] == rest;
    }
  }

  /** Escaping loses nothing: the original text is recovered exactly. */
  lemma {:induction false} UnescapeEscape(s: string)
    ensures Unescape(Escape(s)) == s
    decreases |s|
  {
    if s != [] {
      UnescapeEscape(s[1..]);
      UnescapeEntity(EscapeChar(s[0]), s[0], Escape(s[1..]));
      assert [s[0]] + s[1..] == s;
    }
  }

  /** Hence two different strings never render the same. */
  lemma EscapeInjective(s: string, t: string)
    requires Escape(s) == Escape(t)
    ensures s == t
  {
    UnescapeEscape(s);
    UnescapeEscape(t);
  }

  /** Text with no special characters is embedded as it is. */
  lemma {:induction false} EscapePlain(s: string)
    requires forall k :: 0 <= k < |s| ==> !Special(s[k])
    ensures Escape(s) == s
    decreases |s|
  {
    if s != [] {
      EscapePlain(s[1..]);
      assert [s[0]] + s[1..] == s;
    }
  }

  /** Python's `s.replace('\n', '<br>')`. */
  function NewlinesToBreaks(s: string): string
  {
    if s == [] then []
    else (if s[0] == '\n' then "<br>" else [s[0]]) + NewlinesToBreaks(s[1..])
  }

  /** The summary paragraph's text: escaped, then each newline turned into a `<br>` tag. */
  function FormatSummary(summary: string): string
  {
    NewlinesToBreaks(Escape(summary))
  }

  /** Markup made only of `<br>` tags and characters that are neither raw nor newlines. */
  predicate BreaksOnly(s: string)
    decreases |s|
  {
    s == [] ||
    (StartsWith(s, "<br>") && BreaksOnly(s[4..])) ||
    (!Raw(s[0]) && s[0] != '\n' && BreaksOnly(s[1..]))
  }

  /** Inverse of `NewlinesToBreaks` on text without a raw `<`. */
  function BreaksToNewlines(s: string): string
    decreases |s|
  {
    if s == [] then []
    else if StartsWith(s, "<br>") then "\n" + BreaksToNewlines(s[4..])
    else [s[0]] + BreaksToNewlines(s[1..])
  }

  lemma {:induction false} NewlinesToBreaksSafe(s: string)
    requires forall k :: 0 <= k < |s| ==> !Raw(s[k])
    ensures BreaksOnly(NewlinesToBreaks(s))
    ensures BreaksToNewlines(NewlinesToBreaks(s)) == s
    decreases |s|
  {
    if s != [] {
      NewlinesToBreaksSafe(s[1..]);
      var rest := NewlinesToBreaks(s[1..]);
      var t := NewlinesToBreaks(s);
      if s[0] == '\n' {
        assert t[..4] == "<br>" && t[4..] == rest;
      } else {
        assert t[0] == s[0] && t[1..] == rest;
        assert !StartsWith(t, "<br>");
      }
      assert [s[0]] + s[1..] == s;
    }
  }

  /**
   * The formatted summary contains no raw quote, no `<` or `>` other than
   * those of `<br>` tags and no newline, and the summary is recovered from it.
   */
  lemma FormatSummarySafe(summary: string)
    ensures BreaksOnly(FormatSummary(summary))
    ensures Unescape(BreaksToNewlines(FormatSummary(summary))) == summary
  {
    NewlinesToBreaksSafe(Escape(summary));
    UnescapeEscape(summary);
  }
}
