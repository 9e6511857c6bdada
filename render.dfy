/**
 * The LLMS.txt renderer (app.py:46-71): every field is stripped and replaced
 * by a fixed placeholder when nothing is left, the document is laid out as a
 * list of lines, and the lines are joined with newlines, right-stripped and
 * given one final newline.
 */
module Render {
  import opened Wrappers
  import opened Text
  import opened Document

  const ClientNamePlaceholder: string := "{Client name}"
  const ClientDescriptionPlaceholder: string := "{Client description - multiple lines}"
  const ClientEmailPlaceholder: string := "{Client email}"
  const GroupNamePlaceholder: string := "{Group name}"
  const PageNamePlaceholder: string := "{Page name}"
  const PageUrlPlaceholder: string := "{Page URL}"

  const AiUsageHeading: string := "## AI Usage"
  // The two sentences are spelled in pieces: a long string literal is opaque to the verifier.
  const AiPermission: string := "We permit AI " + "summarisation " + "and linking " + "to our public " + "content."
  const AiTraining: string := "Use of our " + "materials for " + "AI model " + "training " + "requires prior " + "consent."
  const ContactPrefix: string := "Contact us for licensing enquiries: "

  /** `sanitize(v) or placeholder`: the stripped value, or the placeholder when it strips to nothing. */
  function Resolve(s: string, placeholder: string): (r: string)
    ensures placeholder != [] && Trimmed(placeholder) ==> r != [] && Trimmed(r)
  {
    var t := Sanitize(Some(s));
    if t == "" then placeholder else t
  }

  /** A whitespace-only value gets the placeholder; any other value is used stripped. */
  lemma ResolveMeaning(s: string, placeholder: string)
    ensures AllSpace(s) ==> Resolve(s, placeholder) == placeholder
    ensures !AllSpace(s) ==> Resolve(s, placeholder) == Strip(s) != []
  {
    StripEmptyIff(s);
  }

  /** The resolved client name (app.py:47); never empty. */
  function ClientName(c: Client): (r: string)
    ensures r != [] && Trimmed(r)
  {
    Resolve(c.name, ClientNamePlaceholder)
  }

  /** The resolved client description (app.py:48); never empty. */
  function ClientDescription(c: Client): (r: string)
    ensures r != [] && Trimmed(r)
  {
    Resolve(c.description, ClientDescriptionPlaceholder)
  }

  /** The resolved client email (app.py:49); never empty. */
  function ClientEmail(c: Client): (r: string)
    ensures r != [] && Trimmed(r)
  {
    Resolve(c.email, ClientEmailPlaceholder)
  }

  /** The resolved group name (app.py:53); never empty. */
  function GroupTitle(g: Group): (r: string)
    ensures r != [] && Trimmed(r)
  {
    Resolve(g.name, GroupNamePlaceholder)
  }

  /** The markdown link of a page, without its description. */
  function LinkItem(p: Page): string
  {
    "- [" + Resolve(p.pageName, PageNamePlaceholder) + "](" + Resolve(p.pageUrl, PageUrlPlaceholder) + ")"
  }

  /** The one line a page contributes (app.py:57-63). */
  function PageLine(p: Page): string
  {
    var pn := Resolve(p.pageName, PageNamePlaceholder);
    var pu := Resolve(p.pageUrl, PageUrlPlaceholder);
    var pd := Sanitize(Some(p.pageDesc));
    if pd != "" then "- [" + pn + "](" + pu + "): " + pd else "- [" + pn + "](" + pu + ")"
  }

  lemma LinkThenSuffix(pn: string, pu: string, pd: string)
    ensures "- [" + pn + "](" + pu + "): " + pd == "- [" + pn + "](" + pu + ")" + ": " + pd
  {
  }

  /** The description has no placeholder; the ": " suffix appears exactly when it is not blank. */
  lemma PageLineDescription(p: Page)
    ensures PageLine(p) == LinkItem(p) <==> AllSpace(p.pageDesc)
    ensures !AllSpace(p.pageDesc) ==> PageLine(p) == LinkItem(p) + ": " + Strip(p.pageDesc)
  {
    StripEmptyIff(p.pageDesc);
    LinkThenSuffix(Resolve(p.pageName, PageNamePlaceholder), Resolve(p.pageUrl, PageUrlPlaceholder), Strip(p.pageDesc));
    if !AllSpace(p.pageDesc) {
      assert |PageLine(p)| > |LinkItem(p)|;
    }
  }

  function PageLines(ps: seq<Page>): (r: seq<string>)
    ensures |r| == |ps|
  {
    if ps == [] then [] else PageLines(ps[..|ps| - 1]) + [PageLine(ps[|ps| - 1])]
  }

  /** The page lines are the pages' own lines, one per page, in page order. */
  lemma PageLinesInOrder(ps: seq<Page>)
    ensures forall j :: 0 <= j < |ps| ==> PageLines(ps)[j] == PageLine(ps[j])
  {
    PageLinesAt(ps, PageLine);
  }

  /**
   * The induction behind PageLinesInOrder. The line function is passed as a
   * value so that the proof never has to open PageLine's definition.
   */
  lemma {:induction false} PageLinesAt(ps: seq<Page>, f: Page -> string)
    requires forall p :: f(p) == PageLine(p)
    ensures forall j :: 0 <= j < |ps| ==> PageLines(ps)[j] == f(ps[j])
  {
    if ps != [] {
      PageLinesAt(ps[..|ps| - 1], f);
      assert forall j :: 0 <= j < |ps| - 1 ==> ps[..|ps| - 1][j] == ps[j];
    }
  }

  /** The lines of one group section (app.py:53-64). */
  function GroupLines(g: Group): seq<string>
  {
    ["## " + GroupTitle(g), ""] + PageLines(g.pages) + [""]
  }

  /** Number of lines the group sections take: three per group plus one per page. */
  function SectionLength(gs: seq<Group>): nat
  {
    if gs == [] then 0 else SectionLength(gs[..|gs| - 1]) + 3 + |gs[|gs| - 1].pages|
  }

  function GroupsLines(gs: seq<Group>): (r: seq<string>)
    ensures |r| == SectionLength(gs)
  {
    if gs == [] then [] else GroupsLines(gs[..|gs| - 1]) + GroupLines(gs[|gs| - 1])
  }

  function Header(c: Client): seq<string>
  {
    ["# " + ClientName(c), "", "> " + ClientDescription(c), ""]
  }

  function Footer(c: Client): seq<string>
  {
    [AiUsageHeading, "", AiPermission, AiTraining, ContactPrefix + ClientEmail(c)]
  }

  /** The `lines` list `build_llms_text` has assembled before joining (app.py:51-70). */
  function LlmsLines(c: Client, gs: seq<Group>): (r: seq<string>)
    ensures |r| == 4 + SectionLength(gs) + 5
  {
    Header(c) + GroupsLines(gs) + Footer(c)
  }

  /** `"\n".join(lines).rstrip() + "\n"` (app.py:71): the text always ends in a newline. */
  function Finish(lines: seq<string>): (r: string)
    ensures |r| > 0 && r[|r| - 1] == '\n'
  {
    RStrip(Join(NL, lines)) + NL
  }

  /** When the first line starts with a visible character, the newline Finish adds is the only trailing whitespace. */
  lemma FinishVisible(lines: seq<string>)
    requires |lines| > 0 && |lines[0]| > 0 && !IsSpace(lines[0][0])
    ensures EndsWithOneNewline(Finish(lines))
  {
    var joined := Join(NL, lines);
    assert joined[..|lines[0]|] == lines[0];
    RStripVisible(joined);
  }

  /** The text `build_llms_text` returns: it ends with exactly one newline. */
  function LlmsText(c: Client, gs: seq<Group>): (r: string)
    ensures EndsWithOneNewline(r)
  {
    var lines := LlmsLines(c, gs);
    assert lines[0] == "# " + ClientName(c);
    FinishVisible(lines);
    Finish(lines)
  }

  /** The inner loop of app.py:57-63: one line per page, appended in order. */
  method AppendPageLines(lines: seq<string>, pages: seq<Page>) returns (out: seq<string>)
    ensures out == lines + PageLines(pages)
  {
    out := lines;
    var j := 0;
    while j < |pages|
      invariant 0 <= j <= |pages|
      invariant out == lines + PageLines(pages[..j])
    {
      out := out + [PageLine(pages[j])];
      assert out == lines + PageLines(pages[..j + 1]) by {
        assert pages[..j + 1][..j] == pages[..j];
        ConcatAssociative(lines, PageLines(pages[..j]), [PageLine(pages[j])]);
      }
      j := j + 1;
    }
    assert pages[..j] == pages;
  }

  /** One pass of the outer loop of app.py:53-64: heading, blank line, the pages, blank line. */
  method AppendGroupLines(lines: seq<string>, g: Group) returns (out: seq<string>)
    ensures out == lines + GroupLines(g)
  {
    var gname := GroupTitle(g);
    out := lines + ["## " + gname];
    out := out + [""];
    out := AppendPageLines(out, g.pages);
    out := out + [""];
    assert out == lines + GroupLines(g) by {
      assert lines + ["## " + gname] + [""] == lines + ["## " + gname, ""];
      ConcatAssociative(lines, ["## " + gname, ""], PageLines(g.pages));
      ConcatAssociative(lines, ["## " + gname, ""] + PageLines(g.pages), [""]);
    }
  }

  /** app.py:46-71: the header, a loop over the groups, the footer, then join and rstrip. */
  method BuildLlmsText(client: Client, groups: seq<Group>) returns (text: string)
    ensures text == LlmsText(client, groups)
    ensures text == Unlines(LlmsLines(client, groups))
  {
    var name := ClientName(client);
    var desc := ClientDescription(client);
    var email := ClientEmail(client);
    var lines := ["# " + name, "", "> " + desc, ""];
    var i := 0;
    while i < |groups|
      invariant 0 <= i <= |groups|
      invariant lines == Header(client) + GroupsLines(groups[..i])
    {
      ghost var before := lines;
      lines := AppendGroupLines(lines, groups[i]);
      assert lines == Header(client) + GroupsLines(groups[..i + 1]) by {
        assert groups[..i + 1][..i] == groups[..i];
        ConcatAssociative(Header(client), GroupsLines(groups[..i]), GroupLines(groups[i]));
      }
      i := i + 1;
    }
    assert groups[..i] == groups;
    // The five appends of app.py:66-70, as one extension of the list.
    lines := lines + [AiUsageHeading, "", AiPermission, AiTraining, ContactPrefix + email];
    text := RStrip(Join(NL, lines)) + NL;
    RenderIsUnlines(client, groups);
  }

  /** The last line, with the resolved email, always ends in a visible character. */
  lemma ContactLineTrimmed(c: Client)
    ensures ContactPrefix + ClientEmail(c) != [] && Trimmed(ContactPrefix + ClientEmail(c))
  {
    var e := ClientEmail(c);
    assert Trimmed(ClientEmailPlaceholder);
    assert (ContactPrefix + e)[|ContactPrefix + e| - 1] == e[|e| - 1];
  }

  /** The final rstrip removes nothing: the text is each line of `LlmsLines` followed by one newline. */
  lemma RenderIsUnlines(c: Client, gs: seq<Group>)
    ensures LlmsText(c, gs) == Unlines(LlmsLines(c, gs))
  {
    var lines := LlmsLines(c, gs);
    ContactLineTrimmed(c);
    assert lines[|lines| - 1] == ContactPrefix + ClientEmail(c);
    JoinRStripNewline(lines);
  }

  // ---- The rendered text, section by section ----

  function PagesText(ps: seq<Page>): string
  {
    if ps == [] then "" else PagesText(ps[..|ps| - 1]) + PageLine(ps[|ps| - 1]) + NL
  }

  /** A group section: heading, blank line, one line per page, blank line. */
  function GroupText(g: Group): string
  {
    "## " + GroupTitle(g) + NL + NL + PagesText(g.pages) + NL
  }

  function GroupsText(gs: seq<Group>): string
  {
    if gs == [] then "" else GroupsText(gs[..|gs| - 1]) + GroupText(gs[|gs| - 1])
  }

  lemma {:induction false} PageLinesText(ps: seq<Page>)
    ensures Unlines(PageLines(ps)) == PagesText(ps)
  {
    if ps != [] {
      var init, line := ps[..|ps| - 1], PageLine(ps[|ps| - 1]);
      PageLinesText(init);
      UnlinesSnoc(PageLines(init), line);
    }
  }

  lemma UnlinesTitled(a: string)
    ensures Unlines([a, ""]) == a + NL + NL
  {
    assert Unlines([a, ""]) == a + NL + Unlines([""]);
    assert Unlines([""]) == "" + NL + Unlines([]);
  }

  lemma GroupLinesText(g: Group)
    ensures Unlines(GroupLines(g)) == GroupText(g)
  {
    var title, body := "## " + GroupTitle(g), PageLines(g.pages);
    var head := [title, ""];
    assert GroupLines(g) == head + body + [""];
    UnlinesSnoc(head + body, "");
    UnlinesAppend(head, body);
    UnlinesTitled(title);
    PageLinesText(g.pages);
  }

  lemma {:induction false} GroupsLinesText(gs: seq<Group>)
    ensures Unlines(GroupsLines(gs)) == GroupsText(gs)
  {
    if gs != [] {
      var init := gs[..|gs| - 1];
      GroupsLinesText(init);
      UnlinesAppend(GroupsLines(init), GroupLines(gs[|gs| - 1]));
      GroupLinesText(gs[|gs| - 1]);
    }
  }

  lemma UnlinesHeader(name: string, desc: string)
    ensures Unlines(["# " + name, "", "> " + desc, ""]) == "# " + name + NL + NL + "> " + desc + NL + NL
  {
    assert ["# " + name, "", "> " + desc, ""] == ["# " + name, ""] + ["> " + desc, ""];
    UnlinesAppend(["# " + name, ""], ["> " + desc, ""]);
    UnlinesTitled("# " + name);
    UnlinesTitled("> " + desc);
  }

  lemma UnlinesFooter(email: string)
    ensures Unlines([AiUsageHeading, "", AiPermission, AiTraining, ContactPrefix + email]) ==
      AiUsageHeading + NL + NL + AiPermission + NL + AiTraining + NL + ContactPrefix + email + NL
  {
    var a, b, c, d := AiUsageHeading, AiPermission, AiTraining, ContactPrefix + email;
    assert [a, "", b] == [a, ""] + [b];
    assert [a, "", b, c] == [a, "", b] + [c];
    assert [a, "", b, c, d] == [a, "", b, c] + [d];
    UnlinesTitled(a);
    UnlinesSnoc([a, ""], b);
    UnlinesSnoc([a, "", b], c);
    UnlinesSnoc([a, "", b, c], d);
  }

  /**
   * The whole output (app.py:51-71): the client heading and blockquote, every
   * group section in order, then the fixed AI usage section ending in the
   * resolved email and a single newline.
   */
  lemma RenderStructure(c: Client, gs: seq<Group>)
    ensures LlmsText(c, gs) ==
      ("# " + ClientName(c) + NL + NL + "> " + ClientDescription(c) + NL + NL)
      + GroupsText(gs)
      + (AiUsageHeading + NL + NL + AiPermission + NL + AiTraining + NL + ContactPrefix + ClientEmail(c) + NL)
  {
    RenderIsUnlines(c, gs);
    UnlinesAppend(Header(c) + GroupsLines(gs), Footer(c));
    UnlinesAppend(Header(c), GroupsLines(gs));
    UnlinesHeader(ClientName(c), ClientDescription(c));
    GroupsLinesText(gs);
    UnlinesFooter(ClientEmail(c));
  }

  // ---- Line and newline counts ----

  predicate SingleLinePage(p: Page)
  {
    '\n' !in p.pageName && '\n' !in p.pageUrl && '\n' !in p.pageDesc
  }

  predicate SingleLineGroup(g: Group)
  {
    '\n' !in g.name && forall j :: 0 <= j < |g.pages| ==> SingleLinePage(g.pages[j])
  }

  /** No field holds a line break. */
  predicate SingleLineDocument(c: Client, gs: seq<Group>)
  {
    '\n' !in c.name && '\n' !in c.description && '\n' !in c.email &&
    forall k :: 0 <= k < |gs| ==> SingleLineGroup(gs[k])
  }

  lemma ResolveSingleLine(s: string, placeholder: string)
    requires '\n' !in s && '\n' !in placeholder
    ensures '\n' !in Resolve(s, placeholder)
  {
    StripKeepsSingleLine(s, '\n');
  }

  lemma PageLineSingleLine(p: Page)
    requires SingleLinePage(p)
    ensures '\n' !in PageLine(p)
  {
    ResolveSingleLine(p.pageName, PageNamePlaceholder);
    ResolveSingleLine(p.pageUrl, PageUrlPlaceholder);
    StripKeepsSingleLine(p.pageDesc, '\n');
  }

  lemma {:induction false} PageLinesSingleLine(ps: seq<Page>)
    requires forall j :: 0 <= j < |ps| ==> SingleLinePage(ps[j])
    ensures NoLineBreaks(PageLines(ps))
  {
    if ps != [] {
      PageLinesSingleLine(ps[..|ps| - 1]);
      PageLineSingleLine(ps[|ps| - 1]);
      NoLineBreaksConcat(PageLines(ps[..|ps| - 1]), [PageLine(ps[|ps| - 1])]);
    }
  }

  lemma GroupLinesSingleLine(g: Group)
    requires SingleLineGroup(g)
    ensures NoLineBreaks(GroupLines(g))
  {
    ResolveSingleLine(g.name, GroupNamePlaceholder);
    PageLinesSingleLine(g.pages);
    NoLineBreaksConcat(["## " + GroupTitle(g), ""], PageLines(g.pages));
    NoLineBreaksConcat(["## " + GroupTitle(g), ""] + PageLines(g.pages), [""]);
  }

  lemma {:induction false} GroupsLinesSingleLine(gs: seq<Group>)
    requires forall k :: 0 <= k < |gs| ==> SingleLineGroup(gs[k])
    ensures NoLineBreaks(GroupsLines(gs))
  {
    if gs != [] {
      GroupsLinesSingleLine(gs[..|gs| - 1]);
      GroupLinesSingleLine(gs[|gs| - 1]);
      NoLineBreaksConcat(GroupsLines(gs[..|gs| - 1]), GroupLines(gs[|gs| - 1]));
    }
  }

  lemma HeaderSingleLine(c: Client)
    requires '\n' !in c.name && '\n' !in c.description
    ensures NoLineBreaks(Header(c))
  {
    ResolveSingleLine(c.name, ClientNamePlaceholder);
    ResolveSingleLine(c.description, ClientDescriptionPlaceholder);
  }

  lemma PermissionSingleLine()
    ensures '\n' !in AiPermission
  {
  }

  lemma TrainingSingleLine()
    ensures '\n' !in AiTraining
  {
  }

  lemma FixedLinesSingleLine()
    ensures '\n' !in AiUsageHeading && '\n' !in AiPermission && '\n' !in AiTraining && '\n' !in ContactPrefix
  {
    PermissionSingleLine();
    TrainingSingleLine();
  }

  lemma FooterSingleLine(c: Client)
    requires '\n' !in c.email
    ensures NoLineBreaks(Footer(c))
  {
    ResolveSingleLine(c.email, ClientEmailPlaceholder);
    FixedLinesSingleLine();
  }

  /**
   * With no line break inside any field, the output has one newline per
   * emitted line: 4 for the client, 3 per group plus 1 per page, and 5 for
   * the AI usage section.
   */
  lemma NewlineCount(c: Client, gs: seq<Group>)
    requires SingleLineDocument(c, gs)
    ensures Count('\n', LlmsText(c, gs)) == 4 + SectionLength(gs) + 5
  {
    HeaderSingleLine(c);
    FooterSingleLine(c);
    GroupsLinesSingleLine(gs);
    NoLineBreaksConcat(Header(c), GroupsLines(gs));
    NoLineBreaksConcat(Header(c) + GroupsLines(gs), Footer(c));
    RenderIsUnlines(c, gs);
    UnlinesNewlines(LlmsLines(c, gs));
  }

  // ---- Only the stripped fields matter ----

  predicate SameTrimmed(a: string, b: string) { Strip(a) == Strip(b) }

  predicate SamePage(p: Page, q: Page)
  {
    SameTrimmed(p.pageName, q.pageName) && SameTrimmed(p.pageUrl, q.pageUrl) &&
    SameTrimmed(p.pageDesc, q.pageDesc)
  }

  predicate SameGroup(g: Group, h: Group)
  {
    SameTrimmed(g.name, h.name) && |g.pages| == |h.pages| &&
    forall j :: 0 <= j < |g.pages| ==> SamePage(g.pages[j], h.pages[j])
  }

  predicate SameGroups(gs: seq<Group>, hs: seq<Group>)
  {
    |gs| == |hs| && forall k :: 0 <= k < |gs| ==> SameGroup(gs[k], hs[k])
  }

  predicate SameClient(c: Client, d: Client)
  {
    SameTrimmed(c.name, d.name) && SameTrimmed(c.description, d.description) &&
    SameTrimmed(c.email, d.email)
  }

  lemma {:induction false} PageLinesTrimmed(ps: seq<Page>, qs: seq<Page>)
    requires |ps| == |qs| && forall j :: 0 <= j < |ps| ==> SamePage(ps[j], qs[j])
    ensures PageLines(ps) == PageLines(qs)
  {
    if ps != [] {
      PageLinesTrimmed(ps[..|ps| - 1], qs[..|qs| - 1]);
      assert PageLine(ps[|ps| - 1]) == PageLine(qs[|qs| - 1]);
    }
  }

  lemma {:induction false} GroupsLinesTrimmed(gs: seq<Group>, hs: seq<Group>)
    requires SameGroups(gs, hs)
    ensures GroupsLines(gs) == GroupsLines(hs)
  {
    if gs != [] {
      var g, h := gs[|gs| - 1], hs[|hs| - 1];
      GroupsLinesTrimmed(gs[..|gs| - 1], hs[..|hs| - 1]);
      PageLinesTrimmed(g.pages, h.pages);
    }
  }

  /**
   * Whitespace around any field never shows in the output; in particular a
   * whitespace-only field renders exactly as an empty one.
   */
  lemma RenderIgnoresSurroundingWhitespace(c: Client, gs: seq<Group>, d: Client, hs: seq<Group>)
    requires SameClient(c, d) && SameGroups(gs, hs)
    ensures LlmsText(c, gs) == LlmsText(d, hs)
  {
    GroupsLinesTrimmed(gs, hs);
  }

  // ---- Worked examples ----

  lemma EmptyClientHeader()
    ensures Header(EmptyClient) == ["# {Client name}", "", "> " + ClientDescriptionPlaceholder, ""]
  {
    assert Sanitize(Some("")) == "";
    assert ClientName(EmptyClient) == ClientNamePlaceholder;
    assert "# " + ClientNamePlaceholder == "# {Client name}";
  }

  lemma InitialGroupSection()
    ensures GroupsLines(InitialGroups) == ["## Group 1", "", "- [{Page name}]({Page URL})", ""]
  {
    assert Strip("Group 1") == "Group 1";
    assert "## " + GroupTitle(InitialGroups[0]) == "## Group 1";
    assert PageLine(BlankPage) == "- [{Page name}]({Page URL})";
    assert PageLines([BlankPage]) == [PageLine(BlankPage)];
    assert GroupsLines(InitialGroups) == GroupLines(InitialGroups[0]);
  }

  lemma EmptyClientFooter()
    ensures Footer(EmptyClient) == [AiUsageHeading, "", AiPermission, AiTraining, ContactPrefix + ClientEmailPlaceholder]
  {
    assert Sanitize(Some("")) == "";
  }

  /** The lines and the text a fresh session renders: every placeholder in place. */
  lemma InitialDocumentText()
    ensures LlmsLines(EmptyClient, InitialGroups) == [
      "# {Client name}", "",
      "> " + ClientDescriptionPlaceholder, "",
      "## Group 1", "",
      "- [{Page name}]({Page URL})", "",
      AiUsageHeading, "",
      AiPermission,
      AiTraining,
      ContactPrefix + ClientEmailPlaceholder]
    ensures LlmsText(EmptyClient, InitialGroups) == Unlines(LlmsLines(EmptyClient, InitialGroups))
  {
    EmptyClientHeader();
    InitialGroupSection();
    EmptyClientFooter();
    RenderIsUnlines(EmptyClient, InitialGroups);
  }

  /** The URL of the example page below. */
  const ExampleUrl: string := "https://" + "x/pricing"

  /** The stripped name and URL of the example page below. */
  lemma ExampleFields()
    ensures Resolve("Plans", PageNamePlaceholder) == "Plans"
    ensures Resolve(ExampleUrl, PageUrlPlaceholder) == ExampleUrl
  {
  }

  lemma ExampleDescription()
    ensures Strip("See tiers") == "See tiers"
  {
  }

  /** The link of the example page below. */
  lemma ExampleLink(desc: string)
    ensures LinkItem(Page("Plans", ExampleUrl, desc)) == "- [Plans](" + "https://" + "x/pricing)"
  {
    ExampleFields();
    assert "- [" + "Plans" + "](" == "- [Plans](";
  }

  /** A page with a description gets the ": " suffix: `- [Plans](https://x/pricing): See tiers`. */
  lemma PageLineWithDescription()
    ensures PageLine(Page("Plans", ExampleUrl, "See tiers")) == "- [Plans](" + "https://" + "x/pricing): " + "See tiers"
  {
    var p := Page("Plans", ExampleUrl, "See tiers");
    ExampleLink(p.pageDesc);
    ExampleDescription();
    StripEmptyIff(p.pageDesc);
    PageLineDescription(p);
  }

  /** A page whose description is blank renders as the bare link `- [Plans](https://x/pricing)`. */
  lemma PageLineWithoutDescription()
    ensures PageLine(Page("Plans", ExampleUrl, "  ")) == "- [Plans](" + "https://" + "x/pricing)"
  {
    ExampleLink("  ");
    assert Sanitize(Some("  ")) == "";
  }
}
