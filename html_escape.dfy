/** The formatter's `escapeHTML` helper: HTML character references for the five
    characters that Telegram's HTML parse mode treats as markup. The code is a
    chain of five global replacements, `&` first; it is modelled as written
    (EscapeChain), proved equal to a per-character definition (Escaped), and
    proved to be undone by decoding the five entities (Unescape). */
module HtmlEscape {
  import opened JsValues

  /** The characters that carry meaning in HTML markup. */
  predicate IsSpecial(c: char) {
    c == '&' || c == '<' || c == '>' || c == '"' || c == '\''
  }

  /** `s` holds none of the five markup characters. */
  predicate NoSpecial(s: string) {
    forall i :: 0 <= i < |s| ==> !IsSpecial(s[i])
  }

  /** `s` holds no character that could open, close or quote markup. */
  predicate MarkupFree(s: string) {
    '<' !in s && '>' !in s && '"' !in s && '\'' !in s
  }

  /** `s.replace(/c/g, rep)` for a one-character pattern `c`. */
  function ReplaceAll(s: string, c: char, rep: string): string {
    if s == [] then [] else (if s[0] == c then rep else [s[0]]) + ReplaceAll(s[1..], c, rep)
  }

  /** The replacement chain, in the source's order. */
  function EscapeChain(s: string): string {
    var amp := ReplaceAll(s, '&', "&amp;");
    var lt := ReplaceAll(amp, '<', "&lt;");
    var gt := ReplaceAll(lt, '>', "&gt;");
    var quot := ReplaceAll(gt, '"', "&quot;");
    ReplaceAll(quot, '\'', "&#039;")
  }

  /** `escapeHTML(text)`: "" for an undefined or empty text, otherwise the chain. */
  function EscapeHtml(text: Option<string>): (r: string)
    ensures !Truthy(text) ==> r == ""
    ensures Truthy(text) ==> r == Escaped(text.value)
  {
    if !Truthy(text) then ""
    else
      ChainIsPerCharacter(text.value);
      EscapeChain(text.value)
  }

  /** What the caller of `escapeHTML` relies on: no markup character survives,
      decoding the five entities gives the text back, and a text without
      markup characters is returned unchanged. */
  lemma EscapeHtmlProperties(text: Option<string>)
    ensures MarkupFree(EscapeHtml(text))
    ensures Truthy(text) ==> Unescape(EscapeHtml(text)) == text.value
    ensures Truthy(text) && NoSpecial(text.value) ==> EscapeHtml(text) == text.value
  {
    EscapeHtmlMarkupFree(text);
    if Truthy(text) {
      UnescapeEscaped(text.value);
      EscapedPlainText(text.value);
    }
  }

  /** No markup character survives `escapeHTML`. */
  lemma EscapeHtmlMarkupFree(text: Option<string>)
    ensures MarkupFree(EscapeHtml(text))
  {
    if Truthy(text) {
      EscapedIsMarkupFree(text.value);
    }
  }

  // ----- reference definition: one character at a time -----

  /** The entity (or the character itself) that stands for `c`. */
  function EscapeChar(c: char): string {
    if c == '&' then "&amp;"
    else if c == '<' then "&lt;"
    else if c == '>' then "&gt;"
    else if c == '"' then "&quot;"
    else if c == '\'' then "&#039;"
    else [c]
  }

  /** Every character of `s` replaced by its EscapeChar, in order. */
  function Escaped(s: string): string {
    if s == [] then [] else EscapeChar(s[0]) + Escaped(s[1..])
  }

  /** Decodes the five entities and copies every other character. */
  function Unescape(s: string): string
    decreases |s|
  {
    if s == [] then []
    else if "&amp;" <= s then "&" + Unescape(s[5..])
    else if "&lt;" <= s then "<" + Unescape(s[4..])
    else if "&gt;" <= s then ">" + Unescape(s[4..])
    else if "&quot;" <= s then "\"" + Unescape(s[6..])
    else if "&#039;" <= s then "'" + Unescape(s[6..])
    else [s[0]] + Unescape(s[1..])
  }

  // ----- the replacement chain agrees with the reference -----

  lemma {:induction false} ReplaceAllAppend(a: string, b: string, c: char, rep: string)
    ensures ReplaceAll(a + b, c, rep) == ReplaceAll(a, c, rep) + ReplaceAll(b, c, rep)
  {
    if a == [] {
      assert a + b == b;
    } else {
      assert (a + b)[0] == a[0];
      assert (a + b)[1..] == a[1..] + b;
      ReplaceAllAppend(a[1..], b, c, rep);
    }
  }

  lemma {:induction false} ReplaceAllAbsent(s: string, c: char, rep: string)
    requires c !in s
    ensures ReplaceAll(s, c, rep) == s
  {
    if s != [] {
      assert s[0] != c;
      assert c !in s[1..];
      ReplaceAllAbsent(s[1..], c, rep);
      assert [s[0]] + s[1..] == s;
    }
  }

  lemma EscapeChainAppend(a: string, b: string)
    ensures EscapeChain(a + b) == EscapeChain(a) + EscapeChain(b)
  {
    var amp := ReplaceAll(a + b, '&', "&amp;");
    ReplaceAllAppend(a, b, '&', "&amp;");
    var ampA, ampB := ReplaceAll(a, '&', "&amp;"), ReplaceAll(b, '&', "&amp;");
    ReplaceAllAppend(ampA, ampB, '<', "&lt;");
    var ltA, ltB := ReplaceAll(ampA, '<', "&lt;"), ReplaceAll(ampB, '<', "&lt;");
    ReplaceAllAppend(ltA, ltB, '>', "&gt;");
    var gtA, gtB := ReplaceAll(ltA, '>', "&gt;"), ReplaceAll(ltB, '>', "&gt;");
    ReplaceAllAppend(gtA, gtB, '"', "&quot;");
    var quotA, quotB := ReplaceAll(gtA, '"', "&quot;"), ReplaceAll(gtB, '"', "&quot;");
    ReplaceAllAppend(quotA, quotB, '\'', "&#039;");
  }

  lemma ReplaceAllSingle(c: char, x: char, rep: string)
    ensures ReplaceAll([c], x, rep) == if c == x then rep else [c]
  {
    assert [c][1..] == [];
  }

  /** `rep` survives the remaining steps of the chain untouched. */
  lemma ChainTail(rep: string)
    requires '<' !in rep && '>' !in rep && '"' !in rep && '\'' !in rep
    ensures ReplaceAll(ReplaceAll(ReplaceAll(ReplaceAll(rep, '<', "&lt;"), '>', "&gt;"), '"', "&quot;"), '\'', "&#039;") == rep
  {
    ReplaceAllAbsent(rep, '<', "&lt;");
    ReplaceAllAbsent(rep, '>', "&gt;");
    ReplaceAllAbsent(rep, '"', "&quot;");
    ReplaceAllAbsent(rep, '\'', "&#039;");
  }

  /** One character through the chain: only the first matching step fires,
      and the entity it writes contains no later pattern character. */
  lemma EscapeChainChar(c: char)
    ensures EscapeChain([c]) == EscapeChar(c)
  {
    if c == '&' {
      ChainOfAmp();
    } else if c == '<' {
      ChainOfLt();
    } else if c == '>' {
      ChainOfGt();
    } else if c == '"' {
      ChainOfQuot();
    } else if c == '\'' {
      ChainOfApos();
    } else {
      ChainOfPlain(c);
    }
  }

  lemma ChainOfAmp()
    ensures EscapeChain("&") == "&amp;"
  {
    ReplaceAllSingle('&', '&', "&amp;");
    ChainTail("&amp;");
  }

  lemma ChainOfLt()
    ensures EscapeChain("<") == "&lt;"
  {
    ReplaceAllSingle('<', '&', "&amp;");
    assert ReplaceAll("<", '&', "&amp;") == "<";
    ReplaceAllSingle('<', '<', "&lt;");
    ChainTail("&lt;");
  }

  lemma ChainOfGt()
    ensures EscapeChain(">") == "&gt;"
  {
    ReplaceAllSingle('>', '&', "&amp;");
    ReplaceAllSingle('>', '<', "&lt;");
    ReplaceAllSingle('>', '>', "&gt;");
    ReplaceAllAbsent("&gt;", '"', "&quot;");
    ReplaceAllAbsent("&gt;", '\'', "&#039;");
  }

  lemma ChainOfQuot()
    ensures EscapeChain("\"") == "&quot;"
  {
    ReplaceAllSingle('"', '&', "&amp;");
    ReplaceAllSingle('"', '<', "&lt;");
    ReplaceAllSingle('"', '>', "&gt;");
    ReplaceAllSingle('"', '"', "&quot;");
    ReplaceAllAbsent("&quot;", '\'', "&#039;");
  }

  lemma ChainOfApos()
    ensures EscapeChain("'") == "&#039;"
  {
    ReplaceAllSingle('\'', '&', "&amp;");
    ReplaceAllSingle('\'', '<', "&lt;");
    ReplaceAllSingle('\'', '>', "&gt;");
    ReplaceAllSingle('\'', '"', "&quot;");
    ReplaceAllSingle('\'', '\'', "&#039;");
  }

  lemma ChainOfPlain(c: char)
    requires !IsSpecial(c)
    ensures EscapeChain([c]) == [c]
  {
    ReplaceAllSingle(c, '&', "&amp;");
    ReplaceAllSingle(c, '<', "&lt;");
    ReplaceAllSingle(c, '>', "&gt;");
    ReplaceAllSingle(c, '"', "&quot;");
    ReplaceAllSingle(c, '\'', "&#039;");
  }

  lemma {:induction false} ChainIsPerCharacter(s: string)
    ensures EscapeChain(s) == Escaped(s)
  {
    if s == [] {
    } else {
      assert s == [s[0]] + s[1..];
      EscapeChainAppend([s[0]], s[1..]);
      EscapeChainChar(s[0]);
      ChainIsPerCharacter(s[1..]);
    }
  }

  // ----- properties of the reference definition -----

  lemma {:induction false} EscapedIsMarkupFree(s: string)
    ensures MarkupFree(Escaped(s))
  {
    if s != [] {
      EscapedIsMarkupFree(s[1..]);
      assert MarkupFree(EscapeChar(s[0]));
    }
  }

  lemma {:induction false} EscapedPlainText(s: string)
    ensures NoSpecial(s) ==> Escaped(s) == s
  {
    if s != [] && NoSpecial(s) {
      assert !IsSpecial(s[0]);
      assert NoSpecial(s[1..]) by {
        assert forall i :: 0 <= i < |s[1..]| ==> s[1..][i] == s[i + 1];
      }
      EscapedPlainText(s[1..]);
      assert [s[0]] + s[1..] == s;
    }
  }

  /** Escaping works piece by piece. */
  lemma {:induction false} EscapedAppend(a: string, b: string)
    ensures Escaped(a + b) == Escaped(a) + Escaped(b)
  {
    if a != [] {
      assert (a + b)[0] == a[0];
      assert (a + b)[1..] == a[1..] + b;
      EscapedAppend(a[1..], b);
    } else {
      assert a + b == b;
    }
  }

  lemma UnescapeEscapeChar(c: char, rest: string)
    ensures Unescape(EscapeChar(c) + rest) == [c] + Unescape(rest)
  {
    if c == '&' {
      UnescapeAmp(rest);
    } else if c == '<' {
      UnescapeLt(rest);
    } else if c == '>' {
      UnescapeGt(rest);
    } else if c == '"' {
      UnescapeQuot(rest);
    } else if c == '\'' {
      UnescapeApos(rest);
    } else {
      UnescapePlain(c, rest);
    }
  }

  lemma UnescapeAmp(rest: string)
    ensures Unescape("&amp;" + rest) == "&" + Unescape(rest)
  {
    var s := "&amp;" + rest;
    assert "&amp;" <= s;
    assert s[5..] == rest;
  }

  lemma UnescapeLt(rest: string)
    ensures Unescape("&lt;" + rest) == "<" + Unescape(rest)
  {
    var s := "&lt;" + rest;
    assert s[1] == 'l';
    assert "&lt;" <= s;
    assert s[4..] == rest;
  }

  lemma UnescapeGt(rest: string)
    ensures Unescape("&gt;" + rest) == ">" + Unescape(rest)
  {
    var s := "&gt;" + rest;
    assert s[1] == 'g';
    assert "&gt;" <= s;
    assert s[4..] == rest;
  }

  lemma UnescapeQuot(rest: string)
    ensures Unescape("&quot;" + rest) == "\"" + Unescape(rest)
  {
    var s := "&quot;" + rest;
    assert s[1] == 'q';
    assert "&quot;" <= s;
    assert s[6..] == rest;
  }

  lemma UnescapeApos(rest: string)
    ensures Unescape("&#039;" + rest) == "'" + Unescape(rest)
  {
    var s := "&#039;" + rest;
    assert s[1] == '#';
    assert "&#039;" <= s;
    assert s[6..] == rest;
  }

  lemma UnescapePlain(c: char, rest: string)
    requires c != '&'
    ensures Unescape([c] + rest) == [c] + Unescape(rest)
  {
    var s := [c] + rest;
    assert s[0] == c;
    assert s[1..] == rest;
  }

  /** Decoding the five entities recovers the original text: no character is
      lost or escaped twice. */
  lemma {:induction false} UnescapeEscaped(s: string)
    ensures Unescape(Escaped(s)) == s
  {
    if s != [] {
      UnescapeEscapeChar(s[0], Escaped(s[1..]));
      UnescapeEscaped(s[1..]);
      assert [s[0]] + s[1..] == s;
    }
  }
}
