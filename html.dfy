/** The answer finaliser shared by both agent loops: `escapeHTML` and `extractOrWrapHTML`.
    Markdown rendering is an uninterpreted function passed in by the caller. */
module Html {
  import opened Strings

  const Doctype := "<!DOCTYPE"
  const HtmlClose := "</html>"

  /** `s.replace(/c/g, rep)` for a one-character pattern: every `c` becomes `rep`, left to right. */
  function ReplaceAll(s: string, c: char, rep: string): (r: string)
    ensures c !in rep ==> c !in r
    ensures forall d :: d != c && d !in rep ==> (d in r <==> d in s)
  {
    if s == [] then []
    else (if s[0] == c then rep else [s[0]]) + ReplaceAll(s[1..], c, rep)
  }

  lemma {:induction false} ReplaceAllAppend(a: string, b: string, c: char, rep: string)
    ensures ReplaceAll(a + b, c, rep) == ReplaceAll(a, c, rep) + ReplaceAll(b, c, rep)
  {
    if a == [] {
      assert a + b == b;
    } else {
      assert (a + b)[0] == a[0];
      assert (a + b)[1..] == a[1..] + b;
      ReplaceAllAppend(a[1..], b, c, rep);
    }
  }

  /** Four global replacements in a row: `&`, then `<`, then `>`, then `"`. */
  function Passes(text: string, amp: string, lt: string, gt: string, quot: string): string {
    ReplaceAll(ReplaceAll(ReplaceAll(ReplaceAll(text, '&', amp), '<', lt), '>', gt), '"', quot)
  }

  /** `escapeHTML`: the four global replacements, in the source's order (`&` first). The result
      is the per-character escaping, so it holds none of `<`, `>` and `"`, and decoding the four
      entities gives the text back. */
  function EscapeHtml(text: string): (r: string)
    ensures r == EscapeEach(text)
    ensures '<' !in r && '>' !in r && '"' !in r
    ensures Unescape(r) == text
  {
    PassesArePerChar(text);
    EscapeEachRoundTrip(text);
    Passes(text, "&amp;", "&lt;", "&gt;", "&quot;")
  }

  /** An independent reference definition: each character is escaped on its own. */
  function EscapeChar(c: char): (r: string)
    ensures '<' !in r && '>' !in r && '"' !in r
    ensures r != []
  {
    match c
    case '&' => "&amp;"
    case '<' => "&lt;"
    case '>' => "&gt;"
    case '"' => "&quot;"
    case _ => [c]
  }

  function EscapeEach(s: string): (r: string)
    ensures '<' !in r && '>' !in r && '"' !in r
  {
    if s == [] then [] else EscapeChar(s[0]) + EscapeEach(s[1..])
  }

  /** The sequential replacements agree with per-character escaping: because `&` goes first, the
      `&` of an entity made by a later pass is never escaped again. */
  lemma {:induction false} PassesArePerChar(s: string)
    ensures Passes(s, "&amp;", "&lt;", "&gt;", "&quot;") == EscapeEach(s)
  {
    if s != [] {
      PassesArePerChar(s[1..]);
      var c := s[0];
      assert s == [c] + s[1..];
      ReplaceAllAppend([c], s[1..], '&', "&amp;");
      var a1, b1 := ReplaceAll([c], '&', "&amp;"), ReplaceAll(s[1..], '&', "&amp;");
      ReplaceAllAppend(a1, b1, '<', "&lt;");
      var a2, b2 := ReplaceAll(a1, '<', "&lt;"), ReplaceAll(b1, '<', "&lt;");
      ReplaceAllAppend(a2, b2, '>', "&gt;");
      var a3, b3 := ReplaceAll(a2, '>', "&gt;"), ReplaceAll(b2, '>', "&gt;");
      ReplaceAllAppend(a3, b3, '"', "&quot;");
      EscapeCharByPasses(c);
    }
  }

  lemma ReplaceAllSingle(c: char, d: char, rep: string)
    ensures ReplaceAll([c], d, rep) == if c == d then rep else [c]
  {
    assert [c][1..] == [];
  }

  lemma {:induction false} ReplaceAllAbsent(s: string, c: char, rep: string)
    requires c !in s
    ensures ReplaceAll(s, c, rep) == s
  {
    if s != [] {
      ReplaceAllAbsent(s[1..], c, rep);
      assert s == [s[0]] + s[1..];
    }
  }

  /** On a single character the four passes replace it by its own replacement, provided no
      replacement contains a character that a later pass would replace again. */
  lemma PassesSingle(c: char, amp: string, lt: string, gt: string, quot: string)
    requires '<' !in amp && '>' !in amp && '"' !in amp
    requires '>' !in lt && '"' !in lt
    requires '"' !in gt
    ensures Passes([c], amp, lt, gt, quot) ==
      if c == '&' then amp else if c == '<' then lt else if c == '>' then gt else if c == '"' then quot else [c]
  {
    ReplaceAllSingle(c, '&', amp);
    var s1 := ReplaceAll([c], '&', amp);
    if c == '&' {
      ReplaceAllAbsent(s1, '<', lt);
      ReplaceAllAbsent(s1, '>', gt);
      ReplaceAllAbsent(s1, '"', quot);
    } else {
      ReplaceAllSingle(c, '<', lt);
      var s2 := ReplaceAll(s1, '<', lt);
      if c == '<' {
        ReplaceAllAbsent(s2, '>', gt);
        ReplaceAllAbsent(s2, '"', quot);
      } else {
        ReplaceAllSingle(c, '>', gt);
        var s3 := ReplaceAll(s2, '>', gt);
        if c == '>' {
          ReplaceAllAbsent(s3, '"', quot);
        } else {
          ReplaceAllSingle(c, '"', quot);
        }
      }
    }
  }

  /** On a single character the four passes amount to escaping it on its own. */
  lemma EscapeCharByPasses(c: char)
    ensures Passes([c], "&amp;", "&lt;", "&gt;", "&quot;") == EscapeChar(c)
  {
    assert EscapeChar('&') == "&amp;" && EscapeChar('<') == "&lt;" && EscapeChar('>') == "&gt;";
    PassesSingle(c, "&amp;", "&lt;", "&gt;", "&quot;");
  }

  /** Decodes the four entities `escapeHTML` produces; any other character is kept. */
  function Unescape(s: string): string
    decreases |s|
  {
    if StartsWith(s, "&amp;") then "&" + Unescape(s[5..])
    else if StartsWith(s, "&lt;") then "<" + Unescape(s[4..])
    else if StartsWith(s, "&gt;") then ">" + Unescape(s[4..])
    else if StartsWith(s, "&quot;") then "\"" + Unescape(s[6..])
    else if s == [] then []
    else [s[0]] + Unescape(s[1..])
  }

  lemma UnescapeChar(c: char, rest: string)
    ensures Unescape(EscapeChar(c) + rest) == [c] + Unescape(rest)
  {
    var e := EscapeChar(c) + rest;
    if c == '&' {
      assert e[..5] == "&amp;" && e[5..] == rest;
    } else if c == '<' {
      assert e[..4] == "&lt;" && e[4..] == rest;
      assert e[1] == 'l';
      assert !StartsWith(e, "&amp;") by { assert |e| < 5 || e[..5][1] == 'l'; }
    } else if c == '>' {
      assert e[..4] == "&gt;" && e[4..] == rest;
      assert e[1] == 'g';
      assert !StartsWith(e, "&amp;") by { assert |e| < 5 || e[..5][1] == 'g'; }
      assert !StartsWith(e, "&lt;") by { assert e[..4][1] == 'g'; }
    } else if c == '"' {
      assert e[..6] == "&quot;" && e[6..] == rest;
      assert e[1] == 'q';
      assert !StartsWith(e, "&amp;") by { assert e[..5][1] == 'q'; }
      assert !StartsWith(e, "&lt;") by { assert e[..4][1] == 'q'; }
      assert !StartsWith(e, "&gt;") by { assert e[..4][1] == 'q'; }
    } else {
      assert e[0] == c && e[1..] == rest;
      assert !StartsWith(e, "&amp;") by { assert |e| < 5 || e[..5][0] == c; }
      assert !StartsWith(e, "&lt;") by { assert |e| < 4 || e[..4][0] == c; }
      assert !StartsWith(e, "&gt;") by { assert |e| < 4 || e[..4][0] == c; }
      assert !StartsWith(e, "&quot;") by { assert |e| < 6 || e[..6][0] == c; }
    }
  }

  lemma {:induction false} EscapeEachRoundTrip(s: string)
    ensures Unescape(EscapeEach(s)) == s
  {
    if s != [] {
      EscapeEachRoundTrip(s[1..]);
      UnescapeChar(s[0], EscapeEach(s[1..]));
    }
  }

  /** The minimal page wrapped around a non-HTML answer: the escaped query as title and heading,
      then the rendered body. */
  function WrapPage(escaped: string, body: string): (r: string)
    ensures StartsWith(r, Doctype) && EndsWith(r, HtmlClose)
  {
    var mid := " html>\n<html lang=\"nl\">\n<head>\n<meta charset=\"utf-8\">\n"
      + "<meta name=\"viewport\" content=\"width=device-width, initial-scale=1\">\n<title>" + escaped + "</title>\n"
      + PageStyle(ContentWidth) + "</head>\n<body>\n<h1>" + escaped + "</h1>\n" + body + "\n</body>\n";
    Framed(Doctype, mid, HtmlClose);
    Doctype + mid + HtmlClose
  }

  /** The width of the wrapped page's content column, as a CSS length. */
  const ContentWidth := "820px"

  /** The stylesheet of the wrapped page, for a content column `maxWidth` wide. */
  function PageStyle(maxWidth: string): string {
    "<style>\n"
    + "  body { font-family: system-ui, -apple-system, sans-serif; max-width: " + maxWidth + "; margin: 0 auto; padding: 32px 24px; line-height: 1.65; color: #333; background: #fff; }\n"
    + "  h1 { color: #1a1a2e; border-bottom: 2px solid #e8e8e8; padding-bottom: 12px; }\n"
    + "  h2, h3 { color: #1a1a2e; margin-top: 1.5em; }\n"
    + "  a { color: #0066cc; }\n"
    + "  pre { background: #f4f4f4; padding: 16px; border-radius: 8px; overflow-x: auto; font-size: 0.9em; }\n"
    + "  code { background: #f0f0f0; padding: 2px 6px; border-radius: 4px; font-size: 0.9em; }\n"
    + "  blockquote { border-left: 4px solid #ddd; margin: 0; padding-left: 16px; color: #666; }\n"
    + "  ul, ol { padding-left: 1.5em; }\n"
    + "</style>\n"
  }

  /** `extractOrWrapHTML`: the document from the first `<!DOCTYPE` to the end of the last `</html>`
      when the latter comes after the former, otherwise the wrapped page. */
  function ExtractOrWrapHtml(text: string, query: string, markdown: string -> string): (r: string)
    ensures StartsWith(r, Doctype) && EndsWith(r, HtmlClose)
  {
    var doctypeIdx := IndexOf(text, Doctype, 0);
    var htmlCloseIdx := LastIndexOf(text, HtmlClose);
    if doctypeIdx >= 0 && htmlCloseIdx > doctypeIdx then
      CloseAfterDoctype(text, doctypeIdx, htmlCloseIdx);
      var r := text[doctypeIdx..htmlCloseIdx + 7];
      assert r[..|Doctype|] == text[doctypeIdx..doctypeIdx + |Doctype|];
      assert r[|r| - |HtmlClose|..] == text[htmlCloseIdx..htmlCloseIdx + 7];
      r
    else WrapPage(EscapeHtml(query), markdown(text))
  }

  /** A `</html>` after a `<!DOCTYPE` cannot start inside it: none of its later characters is `<`. */
  lemma CloseAfterDoctype(text: string, d: int, h: int)
    requires OccursAt(text, Doctype, d) && OccursAt(text, HtmlClose, h) && d < h
    ensures d + |Doctype| <= h
  {
    assert text[h] == text[h..h + 7][0] == '<';
    forall k | d < k < d + |Doctype|
      ensures text[k] != '<'
    {
      assert text[k] == text[d..d + 9][k - d];
    }
  }

  /** The extract branch: given the first `<!DOCTYPE` at `d` and the last `</html>` at `h > d`,
      the result is exactly `text[d, h + 7)`, whatever the query and the markdown renderer. */
  lemma ExtractSlice(text: string, query: string, markdown: string -> string, d: nat, h: nat)
    requires OccursAt(text, Doctype, d) && forall i :: 0 <= i < d ==> !OccursAt(text, Doctype, i)
    requires OccursAt(text, HtmlClose, h) && forall i :: h < i ==> !OccursAt(text, HtmlClose, i)
    requires d < h
    ensures ExtractOrWrapHtml(text, query, markdown) == text[d..h + 7]
  {
    IndexOfFirst(text, Doctype, d);
    LastIndexOfLast(text, HtmlClose, h);
  }

  /** The wrap branch: without a `<!DOCTYPE` followed by a later `</html>`, the result is the
      wrapped page of the escaped query and the rendered text. */
  lemma WrapWhenNoDocument(text: string, query: string, markdown: string -> string)
    requires forall d, h :: 0 <= d < h && OccursAt(text, Doctype, d) ==> !OccursAt(text, HtmlClose, h)
    ensures ExtractOrWrapHtml(text, query, markdown) == WrapPage(EscapeHtml(query), markdown(text))
  {
    var d := IndexOf(text, Doctype, 0);
    var h := LastIndexOf(text, HtmlClose);
    if d >= 0 && h >= 0 {
      assert OccursAt(text, Doctype, d) && OccursAt(text, HtmlClose, h);
      assert h <= d;
    }
  }

  /** Idempotence: a finalised answer is returned unchanged by a second finalisation. */
  lemma ExtractOrWrapIdempotent(text: string, query: string, query': string,
                                markdown: string -> string, markdown': string -> string)
    ensures var r := ExtractOrWrapHtml(text, query, markdown);
      ExtractOrWrapHtml(r, query', markdown') == r
  {
    var r := ExtractOrWrapHtml(text, query, markdown);
    var h := |r| - |HtmlClose|;
    ExtractSlice(r, query', markdown', 0, h);
    assert r[0..h + 7] == r;
  }
}
