/** Source-type aliases and the text clean-up applied to a document before
    chunking (apps/server/internal/knowledge/biz/parsing.go). Fetching a
    URL and unpacking a .docx are parameters. */
module Parsing {
  import opened Wrappers
  import opened Text

  const TextAliases: set<string> := {"", "text", "plain", "txt"}
  const MarkdownAliases: set<string> := {"md", "markdown"}
  const HtmlAliases: set<string> := {"html", "htm"}
  const DocAliases: set<string> := {"doc", "docx"}
  const UrlAliases: set<string> := {"url", "link"}

  predicate IsAlias(v: string) {
    v in TextAliases || v in MarkdownAliases || v in HtmlAliases || v in DocAliases || v == "pdf" || v in UrlAliases
  }

  // ------------------------------------------------------------ source types

  /** normalizeSourceType: aliases map to their canonical type; anything
      else is passed through trimmed and lower-cased. */
  function NormalizeSourceType(sourceType: string): (r: string)
    ensures var v := Lower(TrimSpace(sourceType));
      (v in TextAliases ==> r == "text") &&
      (v in MarkdownAliases ==> r == "markdown") &&
      (v in HtmlAliases ==> r == "html") &&
      (v in DocAliases ==> r == "doc") &&
      (v == "pdf" ==> r == "pdf") &&
      (v in UrlAliases ==> r == "url") &&
      (!IsAlias(v) ==> r == v)
  {
    var v := Lower(TrimSpace(sourceType));
    if v in TextAliases then "text"
    else if v in MarkdownAliases then "markdown"
    else if v in HtmlAliases then "html"
    else if v in DocAliases then "doc"
    else if v == "pdf" then "pdf"
    else if v in UrlAliases then "url"
    else v
  }

  lemma LowerKeepsSpace(c: char)
    ensures IsSpace(LowerChar(c)) <==> IsSpace(c)
  {
  }

  /** Lower-casing a trimmed string leaves it trimmed. */
  lemma LowerTrimmed(t: string)
    requires t == [] || (!IsSpace(t[0]) && !IsSpace(t[|t| - 1]))
    ensures TrimSpace(Lower(t)) == Lower(t)
  {
    if t != [] {
      LowerKeepsSpace(t[0]);
      LowerKeepsSpace(t[|t| - 1]);
    }
    TrimSpaceUntouched(Lower(t));
  }

  /** Normalizing a normalized source type changes nothing. */
  lemma NormalizeSourceTypeIdempotent(sourceType: string)
    ensures NormalizeSourceType(NormalizeSourceType(sourceType)) == NormalizeSourceType(sourceType)
  {
    var r := NormalizeSourceType(sourceType);
    var v := Lower(TrimSpace(sourceType));
    if IsAlias(v) {
      LowerTrimmed(r);
      assert r in {"text", "markdown", "html", "doc", "pdf", "url"};
      assert Lower(r) == r;
    } else {
      TrimSpaceEnds(sourceType);
      LowerTrimmed(TrimSpace(sourceType));
      LowerIdempotent(TrimSpace(sourceType));
    }
  }

  // ------------------------------------------------------------ content dispatch

  /** parseContent: only `url` and `doc` are fetched or unpacked; every other
      type is the raw text. */
  function ParseContent(sourceType: string, raw: string, fetchUrl: string -> Result<string>,
                        parseDocx: string -> Result<string>): (r: Result<string>)
    ensures sourceType != "url" && sourceType != "doc" ==> r == Ok(raw)
    ensures sourceType == "url" ==> r == fetchUrl(raw)
    ensures sourceType == "doc" ==> r == parseDocx(raw)
  {
    if sourceType == "url" then fetchUrl(raw)
    else if sourceType == "doc" then parseDocx(raw)
    else Ok(raw)
  }

  // ------------------------------------------------------------ HTML

  /** The text stripHTMLTags produces from `s` when it starts inside a tag
      or not: `<` and `>` become spaces and what lies between them goes. */
  function StripTags(s: string, inTag: bool): (r: string)
    ensures '<' !in r && '>' !in r
    ensures |r| <= |s|
    decreases |s|
  {
    if s == [] then []
    else if s[0] == '<' then " " + StripTags(s[1..], true)
    else if s[0] == '>' then " " + StripTags(s[1..], false)
    else if inTag then StripTags(s[1..], true)
    else [s[0]] + StripTags(s[1..], false)
  }

  function StrippedHtml(input: string): string {
    if input == "" then "" else StripTags(input, false)
  }

  /** Text without angle brackets passes through unchanged. */
  lemma {:induction false} StripTagsPlain(s: string)
    requires '<' !in s && '>' !in s
    ensures StripTags(s, false) == s
    decreases |s|
  {
    if s != [] {
      StripTagsPlain(s[1..]);
    }
  }

  /** Inside a tag, text without angle brackets disappears. */
  lemma {:induction false} StripTagsInside(t: string, rest: string)
    requires '<' !in t && '>' !in t
    ensures StripTags(t + rest, true) == StripTags(rest, true)
    decreases |t|
  {
    if t != [] {
      assert t[0] in t;
      assert (t + rest)[1..] == t[1..] + rest;
      StripTagsInside(t[1..], rest);
    } else {
      assert t + rest == rest;
    }
  }

  /** A whole tag outside any tag becomes two spaces. */
  lemma StripTagsTag(t: string, rest: string)
    requires '<' !in t && '>' !in t
    ensures StripTags("<" + t + ">" + rest, false) == "  " + StripTags(rest, false)
  {
    var s := "<" + t + ">" + rest;
    assert s[1..] == t + (">" + rest);
    StripTagsInside(t, ">" + rest);
    assert (">" + rest)[1..] == rest;
  }

  /** stripHTMLTags. */
  method StripHtmlTags(input: string) returns (r: string)
    ensures r == StrippedHtml(input)
  {
    if input == "" {
      return "";
    }
    var b := "";
    var inTag := false;
    var i := 0;
    while i < |input|
      invariant 0 <= i <= |input|
      invariant b + StripTags(input[i..], inTag) == StripTags(input, false)
    {
      assert input[i..][1..] == input[i + 1..];
      var c := input[i];
      if c == '<' {
        inTag := true;
        b := b + " ";
      } else if c == '>' {
        inTag := false;
        b := b + " ";
      } else if !inTag {
        b := b + [c];
      }
      i := i + 1;
    }
    r := b;
  }

  // ------------------------------------------------------------ Markdown

  /** A code fence: a line that starts with three backticks once trimmed. */
  predicate IsFence(line: string) {
    HasPrefix(TrimSpace(line), "```")
  }

  predicate IsIndent(c: char) { c == ' ' || c == '\t' }

  predicate IsHash(c: char) { c == '#' }

  /** A line outside code: leading blanks, one quote marker, heading hashes
      and one bullet are stripped, then bold markers and backticks go. */
  function StripLine(line: string): (r: string)
  {
    var l0 := TrimLeftBy(line, IsIndent);
    var l1 := if HasPrefix(l0, ">") then TrimSpace(TrimPrefix(l0, ">")) else l0;
    var l2 := if HasPrefix(l1, "#") then TrimSpace(TrimLeftBy(l1, IsHash)) else l1;
    var l3 := if HasPrefix(l2, "- ") || HasPrefix(l2, "* ") || HasPrefix(l2, "+ ") then TrimSpace(l2[2..]) else l2;
    ReplaceAll(ReplaceAll(ReplaceAll(l3, "**", ""), "__", ""), "`", "")
  }

  /** A stripped line has no backtick and no character the line lacked. */
  lemma StripLineShape(line: string, c: char)
    ensures '`' !in StripLine(line)
    ensures c !in line ==> c !in StripLine(line)
  {
    var l0 := TrimLeftBy(line, IsIndent);
    var l1 := if HasPrefix(l0, ">") then TrimSpace(TrimPrefix(l0, ">")) else l0;
    var l2 := if HasPrefix(l1, "#") then TrimSpace(TrimLeftBy(l1, IsHash)) else l1;
    var l3 := if HasPrefix(l2, "- ") || HasPrefix(l2, "* ") || HasPrefix(l2, "+ ") then TrimSpace(l2[2..]) else l2;
    ReplaceAllRemoves(ReplaceAll(ReplaceAll(l3, "**", ""), "__", ""), '`', "");
    if c !in line {
      assert c !in l0;
      if HasPrefix(l0, ">") {
        TrimSpaceKeepsOut(TrimPrefix(l0, ">"), c);
      }
      if HasPrefix(l1, "#") {
        TrimSpaceKeepsOut(TrimLeftBy(l1, IsHash), c);
      }
      if HasPrefix(l2, "- ") || HasPrefix(l2, "* ") || HasPrefix(l2, "+ ") {
        TrimSpaceKeepsOut(l2[2..], c);
      }
      ReplaceAllKeepsOut(l3, "**", "", c);
      ReplaceAllKeepsOut(ReplaceAll(l3, "**", ""), "__", "", c);
      ReplaceAllKeepsOut(ReplaceAll(ReplaceAll(l3, "**", ""), "__", ""), "`", "", c);
    }
  }

  /** The output lines for `lines`, starting inside a code block or not:
      fences go and toggle the mode, code lines are kept as they are, other
      lines go through `strip`. */
  function StripLines(lines: seq<string>, inCode: bool, strip: string -> string): seq<string>
    decreases |lines|
  {
    if lines == [] then []
    else if IsFence(lines[0]) then StripLines(lines[1..], !inCode, strip)
    else if inCode then [lines[0]] + StripLines(lines[1..], inCode, strip)
    else [strip(lines[0])] + StripLines(lines[1..], inCode, strip)
  }

  function FenceCount(lines: seq<string>): nat
    decreases |lines|
  {
    if lines == [] then 0 else (if IsFence(lines[0]) then 1 else 0) + FenceCount(lines[1..])
  }

  /** One output line per input line that is not a fence. */
  lemma {:induction false} StripLinesCount(lines: seq<string>, inCode: bool, strip: string -> string)
    ensures |StripLines(lines, inCode, strip)| == |lines| - FenceCount(lines)
    decreases |lines|
  {
    if lines != [] {
      StripLinesCount(lines[1..], if IsFence(lines[0]) then !inCode else inCode, strip);
    }
  }

  /** Inside a code block with no closing fence, every line is kept
      verbatim. */
  lemma {:induction false} CodeKeptVerbatim(lines: seq<string>, strip: string -> string)
    requires forall i :: 0 <= i < |lines| ==> !IsFence(lines[i])
    ensures StripLines(lines, true, strip) == lines
    decreases |lines|
  {
    if lines != [] {
      CodeKeptVerbatim(lines[1..], strip);
    }
  }

  /** No output line gains a character that no input line has. */
  lemma {:induction false} StripLinesKeepOut(lines: seq<string>, inCode: bool, c: char)
    requires forall i :: 0 <= i < |lines| ==> c !in lines[i]
    ensures forall i :: 0 <= i < |StripLines(lines, inCode, StripLine)| ==> c !in StripLines(lines, inCode, StripLine)[i]
    decreases |lines|
  {
    if lines != [] {
      StripLinesKeepOut(lines[1..], if IsFence(lines[0]) then !inCode else inCode, c);
      StripLineShape(lines[0], c);
    }
  }

  function StrippedMarkdown(input: string): string {
    if input == "" then "" else Join(StripLines(Split(input, '\n'), false, StripLine), "\n")
  }

  /** The stripped text has one line per line of the input that is not a
      fence; when every line is a fence it is empty. */
  lemma StrippedMarkdownLines(input: string)
    requires input != ""
    ensures var lines := Split(input, '\n');
      (FenceCount(lines) < |lines| ==> |Split(StrippedMarkdown(input), '\n')| == |lines| - FenceCount(lines)) &&
      (FenceCount(lines) == |lines| ==> StrippedMarkdown(input) == "")
  {
    var lines := Split(input, '\n');
    var out := StripLines(lines, false, StripLine);
    StripLinesCount(lines, false, StripLine);
    StripLinesKeepOut(lines, false, '\n');
    if |out| > 0 {
      SplitJoin(out, '\n');
    }
  }

  /** One line of the stripMarkdown loop. */
  lemma StripLinesStep(lines: seq<string>, i: int, inCode: bool, strip: string -> string)
    requires 0 <= i < |lines|
    ensures StripLines(lines[i..], inCode, strip) ==
      (if IsFence(lines[i]) then [] else [if inCode then lines[i] else strip(lines[i])]) +
      StripLines(lines[i + 1..], if IsFence(lines[i]) then !inCode else inCode, strip)
  {
    assert lines[i..][1..] == lines[i + 1..];
  }

  /** stripMarkdown. */
  method StripMarkdown(input: string) returns (r: string)
    ensures r == StrippedMarkdown(input)
  {
    if input == "" {
      return "";
    }
    var lines := Split(input, '\n');
    var out := StripMarkdownLines(lines, StripLine);
    r := Join(out, "\n");
  }

  /** The line loop of stripMarkdown, for any treatment of lines outside
      code. */
  method StripMarkdownLines(lines: seq<string>, strip: string -> string) returns (out: seq<string>)
    ensures out == StripLines(lines, false, strip)
  {
    out := [];
    var inCode := false;
    var i := 0;
    assert lines[0..] == lines;
    while i < |lines|
      invariant 0 <= i <= |lines|
      invariant out + StripLines(lines[i..], inCode, strip) == StripLines(lines, false, strip)
    {
      var line := lines[i];
      StripLinesStep(lines, i, inCode, strip);
      if IsFence(line) {
        inCode := !inCode;
      } else {
        out := out + [if inCode then line else strip(line)];
      }
      i := i + 1;
    }
    assert StripLines(lines[i..], inCode, strip) == [];
  }

  // ------------------------------------------------------------ clean-up

  /** CRLF and then lone CR become LF. */
  function NormalizeNewlines(s: string): (r: string)
    ensures '\r' !in r
  {
    ReplaceAllRemoves(ReplaceAll(s, "\r\n", "\n"), '\r', "\n");
    ReplaceAll(ReplaceAll(s, "\r\n", "\n"), "\r", "\n")
  }

  /** Text without CR is left alone. */
  lemma NormalizeNewlinesNoCR(s: string)
    requires '\r' !in s
    ensures NormalizeNewlines(s) == s
  {
    forall i | 0 <= i <= |s|
      ensures !OccursAt(s, "\r\n", i) && !OccursAt(s, "\r", i)
    {
      if i < |s| {
        assert s[i] != '\r';
      }
    }
    ReplaceAllAbsent(s, "\r\n", "\n");
    ReplaceAllAbsent(s, "\r", "\n");
  }

  /** A collapsed line: its only white space is single spaces between
      non-space characters. */
  predicate Collapsed(r: string) {
    forall i :: 0 <= i < |r| && IsSpace(r[i]) ==>
      (r[i] == ' ' && 0 < i < |r| - 1 && !IsSpace(r[i - 1]) && !IsSpace(r[i + 1]))
  }

  /** A line's fields joined by single spaces. */
  function CollapseLine(line: string): string {
    Join(Fields(line), " ")
  }

  lemma {:induction false} JoinWordsCollapsed(parts: seq<string>)
    requires forall i :: 0 <= i < |parts| ==> |parts[i]| > 0
    requires forall i, j :: 0 <= i < |parts| && 0 <= j < |parts[i]| ==> !IsSpace(parts[i][j])
    ensures Collapsed(Join(parts, " "))
    ensures |parts| > 0 ==>
      (|Join(parts, " ")| > 0 && !IsSpace(Join(parts, " ")[0]) && !IsSpace(Join(parts, " ")[|Join(parts, " ")| - 1]))
    decreases |parts|
  {
    if |parts| == 1 {
      assert Join(parts, " ") == parts[0];
    } else if |parts| > 1 {
      var p := parts[0];
      var rest := Join(parts[1..], " ");
      JoinWordsCollapsed(parts[1..]);
      var r := Join(parts, " ");
      assert r == p + " " + rest;
      forall i | 0 <= i < |r| && IsSpace(r[i])
        ensures r[i] == ' ' && 0 < i < |r| - 1 && !IsSpace(r[i - 1]) && !IsSpace(r[i + 1])
      {
        if i > |p| {
          assert r[i] == rest[i - |p| - 1];
          assert r[i - 1] == (if i - 1 == |p| then ' ' else rest[i - |p| - 2]);
        }
      }
    }
  }

  /** Every collapsed line has single inner spaces, no edge space and no
      line break. */
  lemma CollapseLineShape(line: string)
    ensures Collapsed(CollapseLine(line))
    ensures '\n' !in CollapseLine(line) && '\r' !in CollapseLine(line)
  {
    JoinWordsCollapsed(Fields(line));
  }

  function CleanedLines(input: string): seq<string> {
    var lines := Split(NormalizeNewlines(input), '\n');
    seq(|lines|, i requires 0 <= i < |lines| => CollapseLine(lines[i]))
  }

  /** What cleanContent returns. */
  function Cleaned(input: string): string {
    if input == "" then "" else TrimSpace(Join(CleanedLines(input), "\n"))
  }

  /** The cleaned text is the trimmed join of its lines; splitting that join
      at line breaks gives back the lines, and every line is collapsed; no
      CR remains and no white space at either end. */
  lemma CleanedShape(input: string)
    ensures '\r' !in Cleaned(input)
    ensures Cleaned(input) == [] || (!IsSpace(Cleaned(input)[0]) && !IsSpace(Cleaned(input)[|Cleaned(input)| - 1]))
    ensures input != "" ==> Split(Join(CleanedLines(input), "\n"), '\n') == CleanedLines(input)
    ensures forall i :: 0 <= i < |CleanedLines(input)| ==> Collapsed(CleanedLines(input)[i])
  {
    var lines := CleanedLines(input);
    forall i | 0 <= i < |lines|
      ensures Collapsed(lines[i]) && '\n' !in lines[i] && '\r' !in lines[i]
    {
      CollapseLineShape(Split(NormalizeNewlines(input), '\n')[i]);
    }
    if input != "" {
      SplitJoin(lines, '\n');
      JoinKeepsOut(lines, "\n", '\r');
      TrimSpaceKeepsOut(Join(lines, "\n"), '\r');
      TrimSpaceEnds(Join(lines, "\n"));
    }
  }

  /** cleanContent. */
  method CleanContent(input: string) returns (r: string)
    ensures r == Cleaned(input)
  {
    if input == "" {
      return "";
    }
    var normalized := ReplaceAll(input, "\r\n", "\n");
    normalized := ReplaceAll(normalized, "\r", "\n");
    var lines := Split(normalized, '\n');
    var out: seq<string> := [];
    var i := 0;
    while i < |lines|
      invariant 0 <= i <= |lines|
      invariant out == CleanedLines(input)[..i]
    {
      out := out + [Join(Fields(lines[i]), " ")];
      i := i + 1;
    }
    assert out == CleanedLines(input);
    r := TrimSpace(Join(out, "\n"));
  }

  /** The text stored for a document: Markdown or HTML markup is stripped
      first according to the (normalized) source type, then it is
      cleaned. */
  function PreparedText(sourceType: string, content: string): string {
    var stripped := if sourceType == "markdown" then StrippedMarkdown(content)
      else if sourceType == "html" then StrippedHtml(content)
      else content;
    Cleaned(stripped)
  }

  /** Prepared text of any type carries no CR and no white space at either
      end. */
  lemma PreparedTextShape(sourceType: string, content: string)
    ensures '\r' !in PreparedText(sourceType, content)
    ensures PreparedText(sourceType, content) == [] ||
      (!IsSpace(PreparedText(sourceType, content)[0]) &&
       !IsSpace(PreparedText(sourceType, content)[|PreparedText(sourceType, content)| - 1]))
  {
    var stripped := if sourceType == "markdown" then StrippedMarkdown(content)
      else if sourceType == "html" then StrippedHtml(content)
      else content;
    CleanedShape(stripped);
  }

  /** prepareContentNormalized. */
  method PrepareContentNormalized(sourceType: string, content: string) returns (r: string)
    ensures r == PreparedText(sourceType, content)
  {
    var c := content;
    if sourceType == "markdown" {
      c := StripMarkdown(content);
    } else if sourceType == "html" {
      c := StripHtmlTags(content);
    }
    r := CleanContent(c);
  }
}
