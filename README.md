# LLMS.txt builder — verified model

The application is a small form-driven editor for an `llms.txt` file. It has
two parts, and this project models both.

Per-session document state:
- a client record (name, description, email);
- an ordered list of groups, each with a name and an ordered list of pages (name, URL, description);
- four structural edits that append or remove a group or a page in place.

Renderer:
- strips every field and substitutes a fixed placeholder for a field that strips to nothing;
- lays the document out as a list of Markdown lines;
- joins the lines with newlines, right-strips the result and appends a single newline.

Modules:

- `Wrappers`: `Option`, standing for Python's `None`.
- `Text`:
  - Python's whitespace test, `str.rstrip` / `str.lstrip` / `str.strip`, and `"\n".join`;
  - an `Unlines` form, where every line is followed by a newline, and a newline counter;
  - the decimal rendering of a count used in the default group name.
- `Document`:
  - the page, group and client values, and the initial document;
  - the invariant "at least one group, every group has a page";
  - each structural edit as a function on the group list, with its full effect stated.
- `Session`:
  - the store as a class with two optional entries, `client` and `groups`;
  - `InitState` fills in missing entries, and the four edit methods change `groups` in place.
  - `InitState` is proved to fill a missing client with the empty client and missing groups with the initial groups, to keep existing entries, and to leave a store without groups satisfying the invariant.
  - Each of the four edit methods is proved to produce exactly the group list its `Document` function describes, to leave `client` alone and to keep the invariant.
- `Render`:
  - the placeholder resolution and the one-line-per-page rule;
  - the line list the generator builds, as functions;
  - the generator itself as a method with the source's group loop and, inside it, the page loop;
  - lemmas about the output: its exact shape section by section, the number of newlines, the single trailing newline, insensitivity to surrounding whitespace, and worked examples.

## Model

| member | source | states |
|---|---|---|
| Text.Strip | app.py:44 | the result has no whitespace at either end and is no longer than the input |
| Text.StripSlice | app.py:44 | the result is the slice of the input between a leading and a trailing run of whitespace, and neither kept end is whitespace |
| Text.StripEmptyIff | app.py:44 | a value strips to the empty string exactly when it is whitespace only |
| Text.StripIdempotent | app.py:44 | stripping twice gives the same as stripping once |
| Text.StripKeepsSingleLine | app.py:44 | stripping never introduces a character that was not in the value |
| Text.Sanitize | app.py:43-44 | `None` becomes the empty string; any result is trimmed and no longer than the value |
| Text.SanitizeIdempotent | app.py:43-44 | sanitizing a sanitized value changes nothing |
| Text.RStrip | app.py:71 | Python's `rstrip`: never longer than its input; `RStripSpec` gives its full characterisation |
| Text.RStripSpec | app.py:71 | rstrip keeps a prefix, drops only whitespace, and leaves a non-space last character |
| Text.LStrip | app.py:44 | Python's `lstrip`, the second half of `strip`: never longer than its input; `LStripSpec` gives its full characterisation |
| Text.LStripSpec | app.py:44 | lstrip keeps a suffix, drops only whitespace, and leaves a non-space first character |
| Text.RStripVisible | app.py:71 | a text that starts with a visible character still ends in one after rstrip |
| Text.Join | app.py:71 | the joined text begins with the first line and ends with the last line |
| Text.JoinRStripNewline | app.py:71 | when the last line is non-empty and trimmed, join, rstrip and one added newline give every line followed by a newline |
| Text.UnlinesNewlines | app.py:71 | with no line break inside any line, the text of n lines holds exactly n newlines |
| Text.NatToString | app.py:26-28 | the decimal form of a count is a non-empty run of digits with no leading zero |
| Text.NatToStringRoundTrip | app.py:26-28 | reading the decimal form back gives the count |
| Text.NatToStringInjective | app.py:26-28 | distinct counts have distinct decimal forms |
| Document.InitialGroupsWellFormed | app.py:15-23 | the starting groups satisfy the invariant and are exactly one group named "Group 1" with one blank page |
| Document.DefaultGroupName | app.py:26-28 | the default name is "Group " followed by the count |
| Document.DefaultGroupNameInjective | app.py:26-28 | two default names are equal exactly when their counts are |
| Document.WithGroupAdded | app.py:25-29 | one more group; earlier groups unchanged; the new last group is named after the new count and holds one blank page; the invariant is kept |
| Document.WithGroupRemoved | app.py:31-33 | with one group, nothing changes; otherwise exactly group i is removed and the others keep their order; the invariant is kept |
| Document.WithPageAdded | app.py:35-36 | group i gets one blank page at the end, keeps its name and earlier pages; every other group is unchanged; the invariant is kept |
| Document.WithPageRemoved | app.py:38-41 | with one page, nothing changes; otherwise exactly page j of group i is removed, the other pages keep their order, group i keeps its name and the other groups are unchanged; the invariant is kept |
| Document.DefaultNameCanRepeat | app.py:25-33 | after removing the first of three groups, the next added group repeats the name "Group 3" |
| Session.SessionState.constructor | app.py:9-15 | a store before the first run holds neither entry |
| Session.SessionState.InitState | app.py:8-23 | a missing client becomes the empty client, missing groups become the initial groups, existing entries stay; a store without groups ends up satisfying the invariant |
| Session.SessionState.AddGroup | app.py:25-29 | the groups become the `WithGroupAdded` list, the client is untouched, and the invariant is preserved |
| Session.SessionState.RemoveGroup | app.py:31-33 | the groups become the `WithGroupRemoved` list; with one group the store is unchanged; the client is untouched; the invariant is preserved |
| Session.SessionState.AddPage | app.py:35-36 | the groups become the `WithPageAdded` list, the client is untouched, and the invariant is preserved |
| Session.SessionState.RemovePage | app.py:38-41 | the groups become the `WithPageRemoved` list; with one page the store is unchanged; the client is untouched; the invariant is preserved |
| Session.EditScenario | app.py:8-41 | a fresh session after adding a group, adding and removing a page, removing the first group and trying to remove the last ends with the single group "Group 2" holding one blank page, and satisfies the invariant |
| Render.Resolve | app.py:47-49 | with a non-empty trimmed placeholder, the resolved value is never empty and is trimmed |
| Render.ResolveMeaning | app.py:47-49 | a whitespace-only field yields its placeholder; any other field yields its stripped value, which is non-empty |
| Render.ClientName | app.py:47 | the resolved client name is never empty and has no surrounding whitespace |
| Render.ClientDescription | app.py:48 | the resolved client description is never empty and has no surrounding whitespace |
| Render.ClientEmail | app.py:49 | the resolved client email is never empty and has no surrounding whitespace |
| Render.GroupTitle | app.py:53 | the resolved group name is never empty and has no surrounding whitespace |
| Render.LinkItem | app.py:57-58 | the link `- [pn](pu)` of a page, from its resolved name and URL; its relation to the page line is stated by `PageLineDescription` |
| Render.PageLine | app.py:57-63 | the one line of a page; `PageLineDescription` states when it carries the description and that it is otherwise the bare link |
| Render.PageLineDescription | app.py:57-63 | a page line is the bare link exactly when the description is whitespace only; otherwise it is the link, ": " and the stripped description, with no placeholder for the description |
| Render.PageLines | app.py:56-63 | one line per page |
| Render.PageLinesInOrder | app.py:56-63 | line j of the page lines is the line of page j, for every page, in page order |
| Render.GroupLines | app.py:53-64 | one group section: heading, blank, page lines, blank; its printed text is stated by `GroupLinesText` and `RenderStructure` |
| Render.GroupLinesText | app.py:53-64 | a group section prints as its heading line, a blank line, one line per page and a blank line |
| Render.Header | app.py:51 | the four opening lines `# name`, blank, `> desc`, blank; their printed text is stated by `RenderStructure` |
| Render.Footer | app.py:66-70 | the five AI usage lines ending in the contact line; their printed text is stated by `RenderStructure` and the last line's shape by `ContactLineTrimmed` |
| Render.GroupsLines | app.py:52-64 | three lines per group plus one per page |
| Render.LlmsLines | app.py:51-70 | 4 header lines, the group sections, and 5 footer lines |
| Render.Finish | app.py:71 | the joined, right-stripped text always ends with a newline |
| Render.FinishVisible | app.py:71 | when the first line starts with a visible character, that newline is the only trailing whitespace |
| Render.LlmsText | app.py:46-71 | the output ends with exactly one newline, with no other whitespace before it |
| Render.AppendPageLines | app.py:56-63 | the page loop appends each page's line in page order |
| Render.AppendGroupLines | app.py:52-64 | one pass of the group loop appends the heading, a blank line, the page lines and a blank line |
| Render.BuildLlmsText | app.py:46-71 | the generator, looping over the groups, returns the specified text, which is every line of the line list followed by one newline |
| Render.ContactLineTrimmed | app.py:70 | the contact line with the resolved email is non-empty and ends in a visible character |
| Render.RenderIsUnlines | app.py:70-71 | the final rstrip removes nothing, because the contact line ends in a visible character, so the text is each line followed by one newline |
| Render.GroupsLinesText | app.py:52-64 | the group sections print as each group's text in group order |
| Render.RenderStructure | app.py:51-71 | the output is `# name`, blank, `> desc`, blank; then every group section in order; then the five AI usage lines ending in the resolved email and a newline |
| Render.NewlineCount | app.py:51-71 | with no line break inside any field, the output holds 4 + Σ(3 + pages) + 5 newlines |
| Render.RenderIgnoresSurroundingWhitespace | app.py:47-63 | documents whose fields strip to the same values render to the same text |
| Render.InitialDocumentText | app.py:8-23 | a fresh session renders every placeholder: the client lines, "## Group 1", the bare link of the blank page, and the AI usage lines |
| Render.PageLineWithDescription | app.py:59-61 | the page (Plans, https://x/pricing, See tiers) renders as `- [Plans](https://x/pricing): See tiers` |
| Render.PageLineWithoutDescription | app.py:62-63 | the same page with a blank description renders as the bare link `- [Plans](https://x/pricing)` |

## Left out

- The Streamlit user interface is not modelled: page configuration, title, expanders, columns, widget bindings, buttons, reruns and the preview (app.py:5, 73-177). The widgets only write strings into the same client, group and page records.
- Downloading the file (app.py:163-173) is I/O and is not modelled: `BytesIO`, the UTF-8 encoding and the download button.
- The `datetime.utcnow()` caption (app.py:175) reads the clock and is only displayed, so it is not modelled.
- The store is one object owned by one session. Streamlit's per-browser-session storage and any concurrency are not modelled.
- Session.SessionState.RemoveGroup: Python's negative indices (`pop(-1)`) are not modelled; indices are natural numbers.
- Session.SessionState.RemovePage: negative indices are not modelled either.
- Session.SessionState.RemoveGroup, Session.SessionState.RemovePage: an out-of-range index (Python's `IndexError`) is excluded by the precondition rather than modelled as an error.
- Session.SessionState.AddPage likewise requires an index in range.
- Text.IsSpace lists Python 3's `str.isspace()` characters explicitly, and some proofs depend on that list. The exactly-one-trailing-newline result (`LlmsText`, `ContactLineTrimmed`) uses that `#`, `C` (the first letter of the contact line), `{` and `}` are not whitespace. The worked examples use that the blank description `"  "` is whitespace and that the letters and punctuation of their values are not.
- Render.NewlineCount is stated only for documents with no line break inside any field. The client description and every page description are multi-line text areas, and each line break inside them adds one newline to the output.
- Render.BuildLlmsText adds the five fixed AI usage lines as one list extension. The source makes five `append` calls, which give the same list.
- Render.AppendPageLines appends each page's line as computed by `PageLine`, where the source's `if pd` branch lives, rather than repeating that branch in the loop.
