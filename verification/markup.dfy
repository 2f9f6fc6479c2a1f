/** Markup escaping as the application uses it: `html.escape(s)` (which also
    escapes quotes) for short display strings, and
    `xml.sax.saxutils.escape(s)` (only `&`, `<`, `>`) for the sitemap. */
module Markup {
  import opened Text

  const Amp := "&amp;"
  const Lt := "&lt;"
  const Gt := "&gt;"
  const Quot := "&quot;"
  const Apos := "&#x27;"

  /** The replacement of one character; `quote` selects `html.escape`'s
      treatment of `"` and `'`. */
  function EscapeChar(c: char, quote: bool): string {
    if c == '&' then Amp
    else if c == '<' then Lt
    else if c == '>' then Gt
    else if quote && c == '"' then Quot
    else if quote && c == '\'' then Apos
    else [c]
  }

  /** `html.escape(s, quote)`; with `quote == false` it is also
      `xml.sax.saxutils.escape(s)`. */
  function Escape(s: string, quote: bool): (r: string)
    ensures '<' !in r && '>' !in r
    ensures |r| >= |s|
    decreases |s|
  {
    if |s| == 0 then "" else EscapeChar(s[0], quote) + Escape(s[1..], quote)
  }

  /** The inverse of `Escape` for the five entities it produces. */
  function Unescape(s: string): string
    decreases |s|
  {
    if |s| == 0 then ""
    else if s[0] != '&' then [s[0]] + Unescape(s[1..])
    else if IsPrefix(Amp, s) then "&" + Unescape(s[|Amp|..])
    else if IsPrefix(Lt, s) then "<" + Unescape(s[|Lt|..])
    else if IsPrefix(Gt, s) then ">" + Unescape(s[|Gt|..])
    else if IsPrefix(Quot, s) then "\"" + Unescape(s[|Quot|..])
    else if IsPrefix(Apos, s) then "'" + Unescape(s[|Apos|..])
    else "&" + Unescape(s[1..])
  }

  lemma UnescapeOneChar(c: char, quote: bool, t: string)
    ensures Unescape(EscapeChar(c, quote) + t) == [c] + Unescape(t)
  {
    var e := EscapeChar(c, quote);
    var s := e + t;
    assert s[..|e|] == e;
    assert s[|e|..] == t;
    if c == '&' {
      assert IsPrefix(Amp, s);
    } else if c == '<' {
      assert s[1] == 'l';
      assert !IsPrefix(Amp, s) && IsPrefix(Lt, s);
    } else if c == '>' {
      assert s[1] == 'g';
      assert !IsPrefix(Amp, s) && !IsPrefix(Lt, s) && IsPrefix(Gt, s);
    } else if quote && c == '"' {
      assert s[1] == 'q';
      assert !IsPrefix(Amp, s) && !IsPrefix(Lt, s) && !IsPrefix(Gt, s) && IsPrefix(Quot, s);
    } else if quote && c == '\'' {
      assert s[1] == '#';
      assert !IsPrefix(Amp, s) && !IsPrefix(Lt, s) && !IsPrefix(Gt, s) && !IsPrefix(Quot, s) && IsPrefix(Apos, s);
    } else {
      assert e == [c] && s[0] == c && s[1..] == t;
    }
  }

  /** Unescaping undoes escaping: no information is lost. */
  lemma {:induction false} UnescapeEscape(s: string, quote: bool)
    ensures Unescape(Escape(s, quote)) == s
    decreases |s|
  {
    if |s| > 0 {
      UnescapeOneChar(s[0], quote, Escape(s[1..], quote));
      UnescapeEscape(s[1..], quote);
      assert [s[0]] + s[1..] == s;
    }
  }

  /** Text without markup-significant characters is left alone; quotes are
      significant only when quoting. */
  lemma {:induction false} EscapePlain(s: string, quote: bool)
    requires forall i :: 0 <= i < |s| ==> s[i] !in "&<>" && (quote ==> s[i] !in "\"'")
    ensures Escape(s, quote) == s
    decreases |s|
  {
    if |s| > 0 {
      assert forall i :: 0 <= i < |s[1..]| ==> s[1..][i] == s[i + 1];
      EscapePlain(s[1..], quote);
      assert [s[0]] + s[1..] == s;
    }
  }
}
