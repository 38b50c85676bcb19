/**
  The two HTML escapers: five replacements in a row (Web/cc_components.js, esc) and one pass with a character map
  (Web/backtest_report_ui.js, escape).
 */
module HtmlEscape {
  import opened Common

  function Entity(c: char): string {
    if c == '&' then "&amp;"
    else if c == '<' then "&lt;"
    else if c == '>' then "&gt;"
    else if c == '\"' then "&quot;"
    else if c == '\'' then "&#39;"
    else [c]
  }

  predicate IsMarkup(c: char) {
    c == '<' || c == '>' || c == '\"' || c == '\''
  }

  /** No markup character in it. */
  predicate Plain(s: string) {
    forall i :: 0 <= i < |s| ==> !IsMarkup(s[i])
  }

  /** One pass with the character map. */
  function EscapeOnce(s: string): string {
    if s == "" then "" else Entity(s[0]) + EscapeOnce(s[1..])
  }

  /** s.replace(/c/g, r) */
  function ReplaceAll(s: string, c: char, r: string): string {
    if s == "" then "" else (if s[0] == c then r else [s[0]]) + ReplaceAll(s[1..], c, r)
  }

  function ReplaceMarkup(s: string): string {
    ReplaceAll(ReplaceAll(ReplaceAll(ReplaceAll(s, '<', "&lt;"), '>', "&gt;"), '\"', "&quot;"), '\'', "&#39;")
  }

  /** The chain, with the ampersand replaced first; null and undefined escape to nothing. */
  function Esc(v: Option<string>): string {
    match v
    case None => ""
    case Some(s) => ReplaceMarkup(ReplaceAll(s, '&', "&amp;"))
  }

  /** The same chain with the ampersand replaced last. */
  function EscAmpersandLast(s: string): string {
    ReplaceAll(ReplaceMarkup(s), '&', "&amp;")
  }

  // ---------------------------------------------------------------- the chain is the map

  lemma {:induction false} ReplaceConcat(a: string, b: string, c: char, r: string)
    ensures ReplaceAll(a + b, c, r) == ReplaceAll(a, c, r) + ReplaceAll(b, c, r)
  {
    if a == "" {
      assert a + b == b;
    } else {
      ReplaceConcat(a[1..], b, c, r);
      assert (a + b)[1..] == a[1..] + b && (a + b)[0] == a[0];
      var head := if a[0] == c then r else [a[0]];
      assert (head + ReplaceAll(a[1..], c, r)) + ReplaceAll(b, c, r) ==
        head + (ReplaceAll(a[1..], c, r) + ReplaceAll(b, c, r));
    }
  }

  lemma MarkupConcat(a: string, b: string)
    ensures ReplaceMarkup(a + b) == ReplaceMarkup(a) + ReplaceMarkup(b)
  {
    var a1, b1 := ReplaceAll(a, '<', "&lt;"), ReplaceAll(b, '<', "&lt;");
    var a2, b2 := ReplaceAll(a1, '>', "&gt;"), ReplaceAll(b1, '>', "&gt;");
    var a3, b3 := ReplaceAll(a2, '\"', "&quot;"), ReplaceAll(b2, '\"', "&quot;");
    ReplaceConcat(a, b, '<', "&lt;");
    ReplaceConcat(a1, b1, '>', "&gt;");
    ReplaceConcat(a2, b2, '\"', "&quot;");
    ReplaceConcat(a3, b3, '\'', "&#39;");
    hide ReplaceAll;
  }

  /** A string that a replacement does not concern passes through it. */
  lemma {:induction false} ReplaceNone(s: string, c: char, r: string)
    requires c !in s
    ensures ReplaceAll(s, c, r) == s
  {
    if s != "" {
      assert c !in s[1..] && s == [s[0]] + s[1..];
      ReplaceNone(s[1..], c, r);
    }
  }

  lemma ReplaceChar(c: char, r: string)
    ensures ReplaceAll([c], c, r) == r
  {
    assert [c][1..] == "";
  }

  lemma MarkupNone(s: string)
    requires Plain(s)
    ensures ReplaceMarkup(s) == s
  {
    ReplaceNone(s, '<', "&lt;");
    ReplaceNone(s, '>', "&gt;");
    ReplaceNone(s, '\"', "&quot;");
    ReplaceNone(s, '\'', "&#39;");
  }

  /** Each markup character is replaced by its own step, and no later step touches its entity. */
  lemma MarkupChar(c: char)
    ensures ReplaceMarkup([c]) == if c == '&' then [c] else Entity(c)
  {
    hide ReplaceAll;
    if !IsMarkup(c) {
      MarkupNone([c]);
    } else {
      if c != '<' { ReplaceNone([c], '<', "&lt;"); } else { ReplaceChar(c, "&lt;"); }
      var s1 := if c == '<' then "&lt;" else [c];
      if c != '>' { ReplaceNone(s1, '>', "&gt;"); } else { ReplaceChar(c, "&gt;"); }
      var s2 := if c == '>' then "&gt;" else s1;
      if c != '\"' { ReplaceNone(s2, '\"', "&quot;"); } else { ReplaceChar(c, "&quot;"); }
      var s3 := if c == '\"' then "&quot;" else s2;
      if c != '\'' { ReplaceNone(s3, '\'', "&#39;"); } else { ReplaceChar(c, "&#39;"); }
    }
  }

  lemma AmpersandChar(c: char)
    ensures ReplaceAll([c], '&', "&amp;") == if c == '&' then "&amp;" else [c]
    ensures ReplaceMarkup(ReplaceAll([c], '&', "&amp;")) == Entity(c)
  {
    if c == '&' {
      ReplaceChar(c, "&amp;");
      MarkupNone("&amp;");
    } else {
      ReplaceNone([c], '&', "&amp;");
      MarkupChar(c);
    }
    hide ReplaceAll, ReplaceMarkup;
  }

  lemma ChainStep(c: char, t: string)
    ensures Esc(Some([c] + t)) == Entity(c) + Esc(Some(t))
  {
    ReplaceConcat([c], t, '&', "&amp;");
    AmpersandChar(c);
    MarkupConcat(ReplaceAll([c], '&', "&amp;"), ReplaceAll(t, '&', "&amp;"));
    hide ReplaceAll, ReplaceMarkup, Entity;
  }

  /** On every string the five steps, ampersand first, do what the one pass does. */
  lemma {:induction false} ChainIsOnePass(s: string)
    ensures Esc(Some(s)) == EscapeOnce(s)
  {
    if s == "" {
      MarkupNone("");
    } else {
      ChainIsOnePass(s[1..]);
      ChainStep(s[0], s[1..]);
      assert s == [s[0]] + s[1..];
      hide Esc, Entity;
    }
  }

  // ---------------------------------------------------------------- decoding

  /** The HTML reader's view: an entity at the front stands for its character. */
  function Unescape(s: string): string {
    if s == "" then ""
    else if "&amp;" <= s then "&" + Unescape(s[5..])
    else if "&lt;" <= s then "<" + Unescape(s[4..])
    else if "&gt;" <= s then ">" + Unescape(s[4..])
    else if "&quot;" <= s then "\"" + Unescape(s[6..])
    else if "&#39;" <= s then "'" + Unescape(s[5..])
    else [s[0]] + Unescape(s[1..])
  }

  lemma UnescapeEntity(c: char, rest: string)
    ensures Unescape(Entity(c) + rest) == [c] + Unescape(rest)
  {
    var e := Entity(c);
    var s := e + rest;
    assert s[..|e|] == e && s[|e|..] == rest && s[0] == e[0];
    if c == '&' {
    } else if c == '<' { assert s[1] == 'l';
    } else if c == '>' { assert s[1] == 'g';
    } else if c == '\"' { assert s[1] == 'q';
    } else if c == '\'' { assert s[1] == '#';
    }
  }

  /** Nothing is lost: decoding restores the input, so different inputs stay different. */
  lemma {:induction false} EscapeRoundTrip(s: string)
    ensures Unescape(EscapeOnce(s)) == s && Unescape(Esc(Some(s))) == s
  {
    ChainIsOnePass(s);
    if s != "" {
      EscapeRoundTrip(s[1..]);
      UnescapeEntity(s[0], EscapeOnce(s[1..]));
      hide Unescape, Entity, Esc;
      assert s == [s[0]] + s[1..];
    }
  }

  lemma EscapeIsInjective(s: string, t: string)
    requires EscapeOnce(s) == EscapeOnce(t) || Esc(Some(s)) == Esc(Some(t))
    ensures s == t
  {
    EscapeRoundTrip(s);
    EscapeRoundTrip(t);
  }

  /** No markup character survives, and every ampersand left begins an entity of the map. */
  lemma {:induction false} EscapedIsInert(s: string, i: nat)
    requires i < |EscapeOnce(s)|
    ensures !IsMarkup(EscapeOnce(s)[i])
    ensures EscapeOnce(s)[i] == '&' ==> exists c :: (c == '&' || IsMarkup(c)) && Entity(c) <= EscapeOnce(s)[i..]
  {
    var e, rest := Entity(s[0]), EscapeOnce(s[1..]);
    if i < |e| {
      if i == 0 && e[0] == '&' { assert EscapeOnce(s)[0..] == e + rest && Entity(s[0]) <= e + rest; }
    } else {
      EscapedIsInert(s[1..], i - |e|);
      assert EscapeOnce(s)[i..] == rest[i - |e|..];
    }
  }

  lemma EscapeOfOne(c: char)
    ensures EscapeOnce([c]) == Entity(c) && Esc(Some([c])) == Entity(c)
  {
    ChainIsOnePass([c]);
    assert [c][1..] == "";
  }

  /** The five entities, by both escapers; no value at all becomes the empty string. */
  lemma EntitiesAreThose()
    ensures EscapeOnce("&") == "&amp;" == Esc(Some("&"))
    ensures EscapeOnce("<") == "&lt;" == Esc(Some("<"))
    ensures EscapeOnce(">") == "&gt;" == Esc(Some(">"))
    ensures EscapeOnce("\"") == "&quot;" == Esc(Some("\""))
    ensures EscapeOnce("'") == "&#39;" == Esc(Some("'"))
    ensures Esc(None) == ""
  {
    EscapeOfOne('&');
    EscapeOfOne('<');
    EscapeOfOne('>');
    EscapeOfOne('\"');
    EscapeOfOne('\'');
    hide EscapeOnce, ReplaceAll, ReplaceMarkup;
  }

  /** Both escape a string piece by piece. */
  lemma {:induction false} EscapeIsPiecewise(a: string, b: string)
    ensures EscapeOnce(a + b) == EscapeOnce(a) + EscapeOnce(b)
    ensures Esc(Some(a + b)) == Esc(Some(a)) + Esc(Some(b))
  {
    ChainIsOnePass(a);
    ChainIsOnePass(b);
    ChainIsOnePass(a + b);
    hide Esc, Entity;
    if a == "" {
      assert a + b == b;
    } else {
      EscapeIsPiecewise(a[1..], b);
      assert (a + b)[1..] == a[1..] + b && (a + b)[0] == a[0];
    }
  }

  /** A character that is no markup and no ampersand passes both escapers unchanged. */
  lemma {:induction false} PlainTextIsUnchanged(s: string)
    requires Plain(s) && '&' !in s
    ensures EscapeOnce(s) == s && Esc(Some(s)) == s
  {
    hide Esc;
    ChainIsOnePass(s);
    if s != "" {
      assert !IsMarkup(s[0]) && Plain(s[1..]);
      PlainTextIsUnchanged(s[1..]);
      hide Plain;
      assert s == [s[0]] + s[1..];
    }
  }

  // ---------------------------------------------------------------- why the ampersand comes first

  lemma {:induction false} AmpersandLastGrows(s: string)
    ensures |EscAmpersandLast(s)| >= |EscapeOnce(s)|
    ensures |EscAmpersandLast(s)| == |EscapeOnce(s)| <==> Plain(s)
    ensures Plain(s) ==> EscAmpersandLast(s) == EscapeOnce(s)
  {
    if s == "" {
      MarkupNone("");
    } else {
      var c, t := s[0], s[1..];
      AmpersandLastGrows(t);
      assert s == [c] + t;
      MarkupConcat([c], t);
      MarkupChar(c);
      var e := if c == '&' then [c] else Entity(c);
      ReplaceConcat(e, ReplaceMarkup(t), '&', "&amp;");
      AmpersandOf(c);
      assert Plain(s) <==> !IsMarkup(c) && Plain(t);
      hide ReplaceAll, ReplaceMarkup;
    }
  }

  lemma AmpersandOf(c: char)
    ensures var e := if c == '&' then [c] else Entity(c);
            var r := ReplaceAll(e, '&', "&amp;");
            if IsMarkup(c) then |r| == |Entity(c)| + 4 else r == Entity(c)
  {
    var e := if c == '&' then [c] else Entity(c);
    if c == '&' {
      ReplaceChar(c, "&amp;");
    } else if IsMarkup(c) {
      assert e == "&" + e[1..];
      ReplaceConcat("&", e[1..], '&', "&amp;");
      ReplaceChar('&', "&amp;");
      ReplaceNone(e[1..], '&', "&amp;");
    } else {
      ReplaceNone(e, '&', "&amp;");
    }
  }

  /** Replacing the ampersand last agrees with the map exactly on the strings without markup characters. */
  lemma AmpersandMustComeFirst(s: string)
    ensures EscAmpersandLast(s) == EscapeOnce(s) <==> Plain(s)
  {
    AmpersandLastGrows(s);
    hide EscAmpersandLast, EscapeOnce;
  }
}
