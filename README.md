# sigmund and heymans, modelled in Dafny

This project models the core of the sigmund repository. The repository holds two AI chat
applications:

- **sigmund**, a general assistant with a code/text workspace, documentation search and
  tool use;
- **heymans**, a course tutor.

Both are served by a Python back end that talks to language models. Their browser front
ends are written in JavaScript.

The model follows the source file by file, one Dafny module per core file or per
self-contained part of one:

- **Reply post-processing** (`sigmund/process_sigmund_message.py`, `sigmund/utils.py`,
  `heymans/utils.py`). Each line-oriented rewrite of an AI reply is a function over
  `seq<char>`: bullet normalisation, list re-indentation, `N)` to `N.`, a blank line after
  colon headers, re-indentation after colon headers, heading-rule conversion, code-fence
  dedent and HTML escaping with protected segments. So are the workspace extraction,
  masked-element removal, thinking-block embedding and extraction, and `prepare_messages`.
  Where the source runs a loop, it is a method whose contract ties it to the functions.
  Each regular expression is written out as an explicit matcher that follows Python's
  backtracking.
- **Provider message normalisation** (`sigmund/model/*.py`, `heymans/model/*.py`). This
  covers the Anthropic tool-message rewrite loop with its tool-use counter, OpenAI tool-call
  linking by index, Mistral filler insertion, token accounting in `BaseModel.predict` and
  the model-name factories. Models that keep state across calls are classes.
- **Conversation and documentation collections** (`sigmund/messages.py`,
  `heymans/messages.py`, `sigmund/documentation.py`, `heymans/documentation.py`,
  `heymans/tools/base_tool.py`). These are classes over `seq` fields, with their append,
  delete, visibility, condensing selection, deduplication, interleaving, stripping and
  JSON span removal.
- **Reply generation and stream framing** (`sigmund/sigmund.py`, `heymans/heymans.py`,
  `sigmund/routes/api.py`, `heymans/routes/api.py`, `sigmund/routes/public.py`,
  `sigmund/static.py`). A generator is an ordered sequence of events. The stream route is
  a loop that frames each reply as one `data: …` event, honours the cancel flag and ends
  with `close`.
- **Browser state machines** (`sigmund/templates/*.js`, `heymans/templates/main.js`,
  `static/client.js`). Each page or widget is a class. Each event handler is a method
  invoked one at a time, with `modifies` on what it changes. Outcomes of the network, the
  DOM and `JSON.parse` are parameters.

Language models, embeddings, the database, `fetch`, EventSource, WebSocket, the DOM and
the markdown renderer are not modelled. Their results enter as parameters, often
functions. Identifiers, clocks and random session ids are parameters too.

Notes on behaviour:

- The health monitor stops at the first failed check. It has no failure counter and no
  special case for 401 or 403 responses (`sigmund/templates/health.js:26-55`).
- Source URLs are de-duplicated in sigmund's page (`sigmund/templates/main.js:260-275`).
  Heymans' page lists every non-empty URL, repeats included
  (`heymans/templates/main.js:165-175`).
- A turn is kept single only by disabling the input.
  - A failed `/chat/start` turns streaming off but leaves the input disabled
    (`sigmund/templates/main.js:370-374`).
  - Cancelling ends the turn only when the cancel request answers `ok`
    (`sigmund/templates/main.js:325-330`).
- `sigmund/sigmund.py:99` passes the message id where `Messages.append` expects the
  workspace content. This is one of the findings below.
- Where a finding below shows the code failing or doing what it evidently does not mean
  to, the model states the code as written in a separate member and proves the
  discrepancy there. The operations themselves use the corrected behaviour. Every member
  that relies on such a correction is named under "Left out".
- Python's argument binding is modelled where it decides whether a constructor call
  succeeds (`PythonCalls`).

## Model

| member | source | states |
|---|---|---|
| MarkdownRewrites.FixedPoint | sigmund/process_sigmund_message.py:7-110 | a rewrite rule with no match at any line start returns the text unchanged |
| MarkdownRewrites.NormalizeBulletPoints | sigmund/process_sigmund_message.py:7-8 | text that holds none of the bullet glyphs is left unchanged by bullet normalisation |
| MarkdownRewrites.ReplaceRoundBracketWithDot | sigmund/process_sigmund_message.py:81-84 | the rewrite only ever turns a `)` into a `.`; no other character changes and nothing moves |
| MarkdownRewrites.AddBlankLineAfterColonHeaders | sigmund/process_sigmund_message.py:10-18 | a text of a single line gets no blank line |
| MarkdownRewrites.BulletLine | sigmund/process_sigmund_message.py:7-8 | a line of leading whitespace, a bullet glyph, whitespace and a rest becomes the same whitespace, "- " and the rest |
| MarkdownRewrites.NonBulletLine | sigmund/process_sigmund_message.py:7-8 | a line whose first non-space character is not a bullet glyph is unchanged |
| MarkdownRewrites.RoundBracketOnlyDots | sigmund/process_sigmund_message.py:81-84 | the bracket rule keeps the length and changes nothing but some ')' into '.' |
| MarkdownRewrites.RoundBracketLine | sigmund/process_sigmund_message.py:81-84 | a line "<whitespace><digits>)<rest>" becomes "<whitespace><digits>.<rest>" |
| MarkdownRewrites.DashIndentLine | sigmund/process_sigmund_message.py:61-78 | under one re-indent rule, n spaces, '-', whitespace and a rest become m spaces, "- " and the rest |
| MarkdownRewrites.OrdinalIndentLine | sigmund/process_sigmund_message.py:87-110 | under one ordinal rule, n spaces before "<digits>." become m spaces, the rest kept |
| MarkdownRewrites.FixListFormattingDashLine | sigmund/process_sigmund_message.py:61-78 | through all twelve rules in pipeline order, a dash line indented 1-3 spaces ends indented 4 and one indented 5-7 ends indented 8 |
| MarkdownRewrites.FixListFormattingOrdinalLine | sigmund/process_sigmund_message.py:87-110 | through all twelve rules, an ordinal line indented 1-3 spaces ends indented 4 and one indented 5-7 ends indented 8 |
| MarkdownRewrites.FixListFormatting | sigmund/process_sigmund_message.py:61-78 | dash lines at other depths (0, 4, 8 or more spaces) pass through the twelve rules unchanged |
| MarkdownRewrites.BlankLineBetweenHeaderAndList | sigmund/process_sigmund_message.py:53-58 | a non-list line followed by a list line gets exactly one empty line inserted between them |
| MarkdownRewrites.NoBlankLineAfterListItem | sigmund/process_sigmund_message.py:53-58 | a list line followed by another line gets no blank line |
| MarkdownRewrites.NoBlankLineBeforeNonListLine | sigmund/process_sigmund_message.py:53-58 | a line followed by a line that is not a list item gets no blank line |
| ColonIndent.FixIndentationAfterColon | sigmund/process_sigmund_message.py:113-143 | the loop over lines computes the specification `FixIndentation` of the text, the properties below being proved about it |
| ColonIndent.LineCountPreserved | sigmund/process_sigmund_message.py:114-143 | the rewrite keeps the number of lines |
| ColonIndent.OutputLineIsSuffix | sigmund/process_sigmund_message.py:129-141 | every output line is its input line with some leading characters removed |
| ColonIndent.HeaderThenItem | sigmund/process_sigmund_message.py:122-131 | a colon header is kept and an indented list item right after it loses its whole indentation |
| ColonIndent.ItemsShiftedByFirstIndent | sigmund/process_sigmund_message.py:126-134 | along a run of indented list items after a header each item is shifted left by the first item's indentation |
| ColonIndent.ItemNeverOpens | sigmund/process_sigmund_message.py:122 | an indented list item never opens a block itself |
| ColonIndent.LastLineNeverOpens | sigmund/process_sigmund_message.py:122 | the last line, or any line equal to it, never opens a block |
| ColonIndent.NonItemUnchanged | sigmund/process_sigmund_message.py:135-141 | a line that is not an indented list item is emitted unchanged |
| ColonIndent.NoHeaderNoChange | sigmund/process_sigmund_message.py:113-143 | text without a colon header line is unchanged |
| Headings.FixMarkdownHeadings | sigmund/process_sigmund_message.py:145-188 | the scan computes the specification `FixHeadings` of the text |
| Headings.HeadingTriple | sigmund/process_sigmund_message.py:166-180 | a rule / non-blank line / rule triple becomes "## " plus the stripped middle line, then an empty line |
| Headings.BlankMiddleNotConverted | sigmund/process_sigmund_message.py:172-184 | a blank line between two rules is no heading: the first rule is kept |
| Headings.NoRulesOnlyRStrip | sigmund/process_sigmund_message.py:161-188 | without rule lines every line is kept, without its trailing whitespace |
| Headings.NoTrailingSpace | sigmund/process_sigmund_message.py:162-184 | no output line ends in whitespace |
| Headings.NeverMoreLines | sigmund/process_sigmund_message.py:163-186 | the output never has more lines than the input |
| CodeFences.DedentCodeBlocks | sigmund/process_sigmund_message.py:190-269 | the two nested loops compute the specification `Dedent` (scan into pieces, then render) for either copy of the function: the message module's, where blank lines are skipped by the indentation test, and the utilities module's (sigmund/utils.py:207-282), where blank lines take part in the test and are shifted too |
| CodeFences.FindCloseSome | sigmund/process_sigmund_message.py:221-236 | the closing fence found has the opening's indentation and fence, and no earlier line is one |
| CodeFences.FindCloseNone | sigmund/process_sigmund_message.py:221-236 | no closing fence is reported only when none follows |
| CodeFences.ScanCovers | sigmund/process_sigmund_message.py:202-267 | the pieces of the scan are exactly the input lines, in order |
| CodeFences.DedentFromTrimmed | sigmund/process_sigmund_message.py:250-257 | the line count never changes and every line keeps its place, at most shortened at the front |
| CodeFences.DedentFromIndentTrimmed | sigmund/process_sigmund_message.py:241-257 | with a prefix test in place of the string comparison, only leading spaces and tabs are ever removed |
| CodeFences.NoFenceNoChange | sigmund/process_sigmund_message.py:206-211 | a message without any fence line is returned unchanged |
| CodeFences.UnclosedKeepsRest | sigmund/process_sigmund_message.py:264-267 | an unclosed fence leaves the rest of the message untouched |
| CodeFences.IndentedBlockShifted | sigmund/process_sigmund_message.py:239-257 | a closed block whose lines all start with the fence's indentation is shifted left by exactly that indentation |
| CodeFences.StringLessDropsText | sigmund/process_sigmund_message.py:247-249 | a fence indented by two tabs and a line indented by one space: the line passes `line_indent < indent` and loses its text |
| EscapeHtml.EscapeTextPerChar | sigmund/process_sigmund_message.py:292-296 | the chained replacements equal escaping each character on its own, so no entity is escaped twice |
| EscapeHtml.UnescapeEscape | sigmund/process_sigmund_message.py:292-296 | decoding the escaped text gives the text back |
| EscapeHtml.EscapedHasNoAngles | sigmund/process_sigmund_message.py:292-296 | escaped text holds no '<' or '>' |
| EscapeHtml.EscapeKeepsPlain | sigmund/process_sigmund_message.py:292-296 | text without '&', '<' and '>' is not changed by escaping |
| EscapeHtml.PartsConcat | sigmund/process_sigmund_message.py:280-287 | the parts of the split put back together give the message |
| EscapeHtml.PartsOddMarked | sigmund/process_sigmund_message.py:280-287 | every odd part is a protected segment: a fenced block or an allowed div |
| EscapeHtml.UnmarkedEscapedWhole | sigmund/process_sigmund_message.py:272-304 | without a fence or a `<div` the whole message is escaped, and decoding gives it back |
| EscapeHtml.PlainFixedPoint | sigmund/process_sigmund_message.py:272-304 | a message with none of '&', '<', '>' is a fixed point of `escape_html_tags` |
| ThinkingBlock.Embed | sigmund/model/_base_model.py:117-122 | the embedding is empty exactly when neither part is truthy, and a truthy signature comes first as its own `<div class="thinking_block_signature">` element |
| ThinkingBlock.MatchAt | sigmund/model/_base_model.py:133-134 | a match of the element pattern at a position starts there, has its group after the opening tag and ends at the first `</div>` that follows |
| ThinkingBlock.SearchFrom | sigmund/model/_base_model.py:135-140 | a search result is a match that starts at or after the search position |
| ThinkingBlock.SearchFromLeftmost | sigmund/model/_base_model.py:135-140 | the match `re.search` finds is the leftmost one, and a failed search means there is no match anywhere |
| ThinkingBlock.Cut | sigmund/model/_base_model.py:138-144 | removing the first match shortens the text by exactly the matched span |
| ThinkingBlock.Extract | sigmund/model/_base_model.py:125-149 | when a signature or content is reported, one of them is non-empty and the text is stripped |
| ThinkingBlock.EmbeddedMatch | sigmund/model/_base_model.py:118-134 | the element the embedder writes is matched at its start with the embedded body as the group |
| ThinkingBlock.EmbeddedFound | sigmund/model/_base_model.py:135-144 | searching a text that starts with an embedded element finds it at the start, and cutting it leaves the rest |
| ThinkingBlock.ExtractBoth | sigmund/model/_base_model.py:135-148 | when both searches succeed with non-empty groups, the result is the text with both elements cut, stripped, and the two groups |
| ThinkingBlock.ExtractEmbed | sigmund/model/_base_model.py:117-149 | extraction inverts embedding: an embedded signature and content in front of a reply give both back, with the reply stripped |
| ThinkingBlock.NoDivUnchanged | sigmund/model/_base_model.py:145-149 | a text without any `<div` comes back unchanged, with neither part |
| ThinkingBlock.EmptySignatureCutUnstripped | sigmund/model/_base_model.py:136-149 | a signature element with an empty group is still cut out, but the rest is returned unstripped and nothing is reported |
| Deindent.FenceStartIsStripped | sigmund/utils.py:53-59 | the fence test is the same as "the left-stripped line starts with three backquotes" |
| Deindent.DedentLines | sigmund/utils.py:55 | `textwrap.dedent` keeps the number of lines of a block |
| Deindent.MarginIsLongestCommonIndent | sigmund/utils.py:55 | the margin `dedent` removes is the longest common prefix of the indentations of the lines that hold text, and empty when none does |
| Deindent.DedentLinesShape | sigmund/utils.py:55 | after `dedent`, a whitespace-only line is empty and a text line has lost exactly the margin |
| Deindent.DedentedIndent | sigmund/utils.py:55 | a dedented line holds text exactly when the original does, and its original indentation is the margin followed by its new one |
| Deindent.DedentedMarginEmpty | sigmund/utils.py:55 | after `dedent` the text lines share no indentation any more |
| Deindent.DedentIdempotent | sigmund/utils.py:55 | `dedent` applied twice gives what it gives once |
| Deindent.DedentFlush | sigmund/utils.py:55 | lines with no whitespace-only line, one of which has no indentation, are left alone |
| Deindent.DeindentCodeBlocks | sigmund/utils.py:46-64 | the loop's output is the kept lines and the dedented closed blocks, in order, joined by newlines |
| Deindent.DeindentLines | sigmund/utils.py:47-63 | the loop with `in_block` and the block accumulator produces exactly the pieces of the reference definition |
| Deindent.KeptUntilFence | sigmund/utils.py:58-63 | every line before the first fence line is kept as it is |
| Deindent.OpenBlockUntilFence | sigmund/utils.py:50-57 | an open block runs to the next fence line and becomes one piece with it; with no fence left the lines of the block are lost |
| Deindent.FenceOpensBlock | sigmund/utils.py:59-61 | a fence line opens a block that the next fence line closes; an unterminated block drops every remaining line |
| Deindent.NoFenceUnchanged | heymans/utils.py:43-61 | a text without a fence line comes back as its lines joined by newlines |
| ReplyPipeline.LeadWithBlankLine | sigmund/process_sigmund_message.py:316-317 | a message that starts with something other than a letter gets two newlines in front, any other message is unchanged |
| ReplyPipeline.ProcessAiMessage | sigmund/process_sigmund_message.py:307-336 | the reply is the composition of the rewrite steps in the order the source applies them |
| ReplyPipeline.ProcessWorkspaceContent | sigmund/process_sigmund_message.py:339-345 | absent content stays absent and empty content is returned as it is; other content is escaped |
| ReplyPipeline.PlainLineUnchanged | sigmund/process_sigmund_message.py:307-336 | an ordinary one-line reply that starts with a letter passes through every step unchanged |
| HtmlClean.QuoteEntity | heymans/utils.py:27-28 | a character is left as it is exactly when it is none of the five characters `html.escape` replaces |
| HtmlClean.HtmlEscape | sigmund/utils.py:30-31 | escaping never shortens the text |
| HtmlClean.UnescapeEscape | sigmund/utils.py:30-31 | unescaping the escaped text gives the text back, so escaping loses nothing |
| HtmlClean.EscapeNoMarkup | sigmund/utils.py:30-31 | the escaped text holds no angle bracket and no quote |
| HtmlClean.HeymansMd | heymans/utils.py:15-21 | a text holding `<REPORTED>` or `<FINISHED>` is returned as it is; any other text is rendered as markdown |
| HtmlClean.HeymansClean | heymans/utils.py:24-29 | with escaping and rendering both off the text is returned as it is; after escaping, every '<' of the cleaned text starts a `<br>` and every newline ends one |
| HtmlClean.SigmundClean | sigmund/utils.py:27-32 | with escaping and rendering both off the text is returned as it is; after escaping no angle bracket or quote is left, and unescaping gives back the (rendered) text |
| MaskedElements.MatchAt | sigmund/utils.py:179-182 | a match of the masked-element pattern starts with '<', ends after its start and holds the word "mask" |
| MaskedElements.RemoveMaskedElements | sigmund/utils.py:170-184 | removing masked elements never lengthens the text |
| MaskedElements.KeptCharactersFromText | sigmund/utils.py:183 | every character that remains comes from the text at a position where no masked element starts |
| MaskedElements.WithoutMaskUnchanged | sigmund/utils.py:179-183 | a text that never holds the word "mask" is returned unchanged |
| MaskedElements.WithoutTagUnchanged | sigmund/utils.py:179-183 | a text without '<' is returned unchanged |
| ExtractWorkspace.Extract | sigmund/utils.py:123-167 | the text changes only when a workspace block is found, and then is not empty; a content always comes with its language |
| ExtractWorkspace.FirstClose | sigmund/utils.py:145-159 | the lazy group stops at the first closing tag at a line start after it, and there is none when the search fails |
| ExtractWorkspace.WorkspaceAt | sigmund/utils.py:145-146 | a workspace match opens at a line start with `<workspace` and closes with `</workspace>` at a line start |
| ExtractWorkspace.CodeBlockAt | sigmund/utils.py:159-160 | a code-block match opens with a fence at a line start and closes with a fence at a line start |
| ExtractWorkspace.SearchLeftmost | sigmund/utils.py:146-160 | the match found is the leftmost one, and a failed search means there is no match anywhere |
| ExtractWorkspace.RemoveChangesIffMatch | sigmund/utils.py:150-151 | substituting the workspace pattern changes the text exactly when it matches, and then shortens it |
| ExtractWorkspace.WorkspaceExtracted | sigmund/utils.py:146-157 | with a workspace block the content is its stripped group, the language is the attribute or "markdown", and the text is the stripped remainder or, when that is empty, the placeholder |
| ExtractWorkspace.NoWorkspaceTextUnchanged | sigmund/utils.py:158-167 | without a workspace block the text is unchanged, content and language come together, and content comes only from a code block of more than two lines |
| ExtractWorkspace.EmptyTextOnlyFromEmptyInput | sigmund/utils.py:154-167 | the returned text is empty only for an empty input |
| ExtractWorkspace.WithoutTagNoWorkspace | sigmund/utils.py:145-167 | a text without `<workspace` has no workspace block and is returned unchanged |
| ExtractWorkspace.ContentStopsAtFirstClose | sigmund/utils.py:145-159 | the content of a match holds no closing tag at a line start |
| PrepareMessages.Kinds | sigmund/utils.py:99-119 | the kinds of a history are its messages' types, position by position |
| PrepareMessages.Merge | sigmund/utils.py:104-115 | merging never adds messages and keeps a non-empty history non-empty |
| PrepareMessages.Prepare | sigmund/utils.py:94-120 | the result is an `IndexError` exactly when the first AI message may not lead and the history holds a single message |
| PrepareMessages.PrepareSpec | sigmund/utils.py:94-120 | [] maps to []; the first message keeps its type; without `allow_ai_last` the last message is not AI; with the defaults the history is returned as it is |
| PrepareMessages.MergeEnds | sigmund/utils.py:104-115 | merging keeps the type of the first and of the last message |
| PrepareMessages.MergeAlternates | sigmund/utils.py:104-115 | after merging no two adjacent messages share a type |
| PrepareMessages.MergeKinds | sigmund/utils.py:104-115 | the types after merging are the types of the history with adjacent repeats collapsed, in order |
| PrepareMessages.MergeRun | sigmund/utils.py:107-109 | a run of messages of one type becomes one message whose content is theirs joined by the separator |
| PrepareMessages.MergeAppend | sigmund/utils.py:104-115 | merging distributes over a concatenation whose halves meet at a change of type |
| PrepareMessages.MergeOfAlternating | sigmund/utils.py:104-115 | a history whose neighbouring messages already differ in type is left as it is |
| PrepareMessages.MergeRuns | sigmund/utils.py:104-115 | the merge loop returns message objects of the caller's list whose values are the reference merge |
| PrepareMessages.DropFirstAi | sigmund/utils.py:100-102 | `messages.pop(1)` removes the second message exactly when it is an AI message |
| PrepareMessages.AppendContinue | sigmund/utils.py:117-119 | a new "Please continue!" human message is appended and the rest of the list is untouched |
| PrepareMessages.PrepareList | sigmund/utils.py:96-120 | on a list, the result holds the reference preparation of its values, or its error; without merging the caller's own list object is returned |
| PrepareMessages.PrepareMessages | sigmund/utils.py:94-97 | anything that is not a list is returned unchanged; a list is prepared as above |
| AiMessage.LastBreak | sigmund/utils.py:195 | the newline the greedy whitespace settles on is the last one in range that stands before a list marker |
| AiMessage.ColonMatchAt | sigmund/utils.py:195-197 | a match starts at a colon and ends right after a newline that stands before a list marker |
| AiMessage.BlankLineBeforeLists | sigmund/utils.py:195-197 | a reply without a colon is not changed by the colon rewrite |
| AiMessage.ColonNewlineList | sigmund/utils.py:195 | a colon directly followed by a newline and a list marker is matched up to that newline |
| AiMessage.ColonLineGetsBlankLine | sigmund/utils.py:195-197 | such a colon line is rewritten to a colon and two newlines before the list |
| AiMessage.MatchKeepsListMarker | sigmund/utils.py:195 | the lookahead does not consume the list marker: it is the next character kept after the match |
| AiMessage.NoListNoMatch | sigmund/utils.py:195 | a colon not followed before the end by a newline that precedes a list is never rewritten |
| AiMessage.ProcessAiMessage | sigmund/utils.py:190-206 | a reply that starts with a letter and holds no colon and no fence line comes back from the whole function unchanged |
| PrepareMessages.ChatMessage.constructor | sigmund/utils.py:119 | a new message holds exactly the given type and content, as `HumanMessage(content='Please continue!')` does |
| PrepareMessages.MessageList.constructor | sigmund/utils.py:67 | the list holds exactly the given messages, in order |
| ModelBase.SumLengthsAppend | sigmund/model/_base_model.py:48-52 | the length of a message list is additive over concatenation |
| ModelBase.WrappedPromptLength | sigmund/model/_base_model.py:48-52 | a string prompt counts as long as the one-message list it is wrapped into |
| ModelBase.ConvertMessage | sigmund/model/_base_model.py:54-59 | a string becomes a user message, a dictionary is kept, and exactly the other objects are refused with the `ValueError` text |
| ModelBase.ConvertIdempotent | sigmund/model/_base_model.py:54-59 | converting a converted message again changes nothing |
| ModelBase.WithSpecs | sigmund/model/_base_model.py:36-40 | the tool list holds at most one entry per tool, each of type "function" |
| ModelBase.ToolEntries | sigmund/model/_base_model.py:36-40 | no tools give an empty list, and never more entries than tools |
| ModelBase.WithSpecsAppend | sigmund/model/_base_model.py:38-40 | the tool list is built tool by tool, in order |
| ModelBase.WithSpecsAll | sigmund/model/_base_model.py:38-40 | when every tool has a specification, the list holds each of them as a function entry, in order |
| ModelBase.WithSpecsNone | sigmund/model/_base_model.py:38-40 | when no tool has a specification the list is empty |
| ModelBase.NamedIndex | sigmund/model/_anthropic_model.py:81-83 | the index found is that of the first tool with the name, and none is found only when no tool has it |
| PythonCalls.CallBinds | sigmund/model/_base_model.py:18-19 | a call binds exactly when its positional arguments fit, its keywords name distinct parameters after them, and every parameter without a default is given |
| ModelBase.ProviderInitMissesModel | sigmund/model/_openai_model.py:14 | as written, the providers' `super().__init__(sigmund, **kwargs)` leaves `model` unbound and raises TypeError, whatever keyword arguments the factory passes on |
| ModelBase.ProviderInitBinds | sigmund/model/_openai_model.py:12-14 | passing `model` on as well binds for every keyword arguments the factory passes on |
| ModelBase.BaseModel.constructor | sigmund/model/_base_model.py:18-28 | a new model holds its settings, has JSON mode off and all token counters at zero |
| ModelBase.BaseModel.Predict | sigmund/model/_base_model.py:61-79 | the reply is returned unchanged; with tracking, the counters grow by a quarter of the prompt and of the reply length, rounded down, and the total stays their sum; without tracking nothing changes |
| ModelBase.BaseModel.BindTool | sigmund/model/_anthropic_model.py:81-84 | the tool loop binds the first tool with the asked name, gives `invalid_tool` when none has it, and fails when the model has no tool list |
| AnthropicModel.SplitSystem | sigmund/model/_anthropic_model.py:111-114 | a leading system message is taken out as the separate system argument; an empty list raises `IndexError` |
| AnthropicModel.FirstToolUse | sigmund/model/_anthropic_model.py:79-84 | the response block that decides the reply is the first tool-use block |
| AnthropicModel.AnthropicModel.constructor | sigmund/model/_anthropic_model.py:12-18 | a new model has the base settings and a tool-use counter at zero |
| AnthropicModel.AnthropicModel.RewriteToolMessages | sigmund/model/_anthropic_model.py:32-74 | the rewrite loop gives exactly the reference rewrite of the messages and advances the tool-use counter as it does |
| AnthropicModel.AnthropicModel.ToolArgs | sigmund/model/_anthropic_model.py:90-103 | the `tools` argument lists every tool entry in the Anthropic format, and is absent without tools |
| AnthropicModel.AnthropicModel.GetResponse | sigmund/model/_anthropic_model.py:77-87 | the reply is the text blocks joined by newlines, or the binding of the first tool-use block |
| AnthropicModel.AnthropicModel.Predict | sigmund/model/_anthropic_model.py:20-114 | a string prompt is wrapped as one user message and a list is rewritten as the rewrite loop receives it, then sent without its system message; the counter and the token accounting follow the rewrite, and a failed rewrite changes no counter |
| AnthropicModel.RewriteNoTools | sigmund/model/_anthropic_model.py:34-49 | after a successful rewrite no message has the role "tool" |
| AnthropicModel.RewriteCount | sigmund/model/_anthropic_model.py:44-61 | the counter advances by exactly the number of tool messages |
| AnthropicModel.RewriteRoles | sigmund/model/_anthropic_model.py:41-74 | the roles after the rewrite are the roles before, with tool roles read as user and a tool followed by a user collapsed into one |
| AnthropicModel.RewriteFails | sigmund/model/_anthropic_model.py:36-40 | the rewrite fails exactly when the first message is a tool message or some tool message's content does not decode |
| AnthropicModel.RewriteWithoutTools | sigmund/model/_anthropic_model.py:32-72 | messages without tool messages are left as they are, and the counter does not move |
| AnthropicModel.ToolUseDecides | sigmund/model/_anthropic_model.py:79-84 | blocks after the first tool-use block do not affect the reply |
| AnthropicModel.RemoveMergedAsWritten | sigmund/model/_anthropic_model.py:74 | `list.remove` drops one message, the first one equal to the merged user message, which may lie before it |
| AnthropicModel.RemoveDropsEarlierDuplicate | sigmund/model/_anthropic_model.py:62-74 | for [user u, assistant, tool, u] the removal takes out the opening u, so the history starts with the assistant message and the merged u is sent twice; the model's rewrite gives [u, assistant with tool use, tool result merged with u] |
| AnthropicModel.AnthropicModel.Pass | sigmund/model/_anthropic_model.py:34-72 | one pass of the `for` loop either finishes with the reference rewrite, fails with its error, or stops at a merge having made progress towards the same rewrite |
| AnthropicModel.AnthropicModel.Convert | sigmund/model/_anthropic_model.py:35-70 | converting one tool message keeps the loop on course to the reference rewrite: it fails exactly as the rewrite does, and otherwise advances past the message, merging the next user message when there is one |
| OpenAIModel.FirstFailure | sigmund/model/_openai_model.py:36-39 | the failure the loop stops at is the first tool message after the first position whose content does not decode |
| OpenAIModel.PrepareToolMessages | sigmund/model/_openai_model.py:32-56 | the in-place loop gives exactly the reference linking of the messages, or the first decoding error |
| OpenAIModel.GetResponse | sigmund/model/_openai_model.py:58-67 | the reply is the reference reply of the completion: the bound tool of the first tool call, `invalid_tool`, or the message content |
| OpenAIModel.OpenAIModel.constructor | sigmund/model/_openai_model.py:12-18 | a new model holds its settings with the tool choice normalised, JSON mode off and the counters at zero |
| OpenAIModel.OpenAIModel.Predict | sigmund/model/_openai_model.py:22-79 | the prompt is converted and linked, the request carries the tool arguments and the JSON format when asked for, and the token accounting of the base model follows; a failure changes no counter |
| OpenAIModel.ChoiceNormalisation | sigmund/model/_openai_model.py:16-18 | no choice and "auto" are kept, any other name becomes a function choice of that name, and normalising twice changes nothing more |
| OpenAIModel.PrepareFails | sigmund/model/_openai_model.py:36-39 | the linking fails exactly when some tool message after the first position does not decode |
| OpenAIModel.PrepareKeepsRoles | sigmund/model/_openai_model.py:36-56 | the linking keeps the number of messages and every role |
| OpenAIModel.PrepareLinks | sigmund/model/_openai_model.py:40-54 | a tool message at i gets the id `call_i` and the tool's name, and the message before it gets empty content and the one matching tool call |
| OpenAIModel.PrepareToolOutput | sigmund/model/_openai_model.py:55 | a tool message not followed by another one ends with the tool's output as its content |
| OpenAIModel.PrepareUntouched | sigmund/model/_openai_model.py:36-38 | a message that neither is a linked tool message nor precedes one is left unchanged |
| OpenAIModel.PrepareWithoutTools | sigmund/model/_openai_model.py:36-38 | without tool messages after the first position the messages are returned as they are |
| OpenAIModel.CompletionReplyMeaning | sigmund/model/_openai_model.py:58-67 | a tool call binds the first tool with the called name and its arguments; `invalid_tool` exactly when no tool has the name; an error exactly when there is no tool list; otherwise the content |
| OpenAIModel.NoChoiceFails | sigmund/model/_openai_model.py:59 | a completion without choices raises `IndexError` |
| OpenAIModel.ToolArgsMeaning | sigmund/model/_openai_model.py:69-72 | the tool arguments are absent exactly without tools, and otherwise carry the model's tool choice and function entries only |
| MistralModel.InsertFillers | sigmund/model/_mistral_model.py:34-44 | the insertion loop gives exactly the reference filling of the messages |
| MistralModel.MistralModel.constructor | sigmund/model/_mistral_model.py:14-20 | a new model holds its settings, with any tool choice replaced by "any" |
| MistralModel.MistralModel.Predict | sigmund/model/_mistral_model.py:24-45 | a string prompt becomes one user message and a list is linked as the linking step receives it; then it is filled, sent with the request `_mistral_invoke` builds, and accounted as in the base model |
| MistralModel.InsertKeepsFill | sigmund/model/_mistral_model.py:35-44 | one insertion moves toward the same filled result and removes one tool–user pair |
| MistralModel.FillNoPairs | sigmund/model/_mistral_model.py:33-44 | after filling no tool message is followed directly by a user message |
| MistralModel.FillNoPairsFixed | sigmund/model/_mistral_model.py:40-41 | messages without a tool–user pair are left as they are |
| MistralModel.FillIdempotent | sigmund/model/_mistral_model.py:33-44 | filling twice gives what filling once gives |
| MistralModel.FillLength | sigmund/model/_mistral_model.py:43-44 | filling adds exactly one message per tool–user pair |
| MistralModel.FillHead | sigmund/model/_mistral_model.py:43 | filling keeps the first message |
| MistralModel.FillKeepsMessages | sigmund/model/_mistral_model.py:43-44 | every original message is kept, in order, at its shifted position |
| MistralModel.FillFillerAfterPair | sigmund/model/_mistral_model.py:43-44 | right after a tool message that preceded a user message stands the assistant message "Tool was executed." |
| MistralModel.FillShape | sigmund/model/_mistral_model.py:43-44 | each original message moves on by one, or by two right after a tool–user pair |
| MistralModel.LastToolNoTools | sigmund/model/_mistral_model.py:51-52 | when the last message is a tool message the request carries no tool arguments |
| MistralModel.OtherwiseOpenAITools | sigmund/model/_mistral_model.py:53-54 | otherwise the request carries the same tool arguments as the OpenAI model's |
| MistralModel.ChoiceIsAny | sigmund/model/_mistral_model.py:19-20 | the tool choice is absent exactly when none was given, and "any" otherwise |
| SigmundModelFactory.Lookup | sigmund/model/__init__.py:34-41 | a name is found exactly when the table has it as a key, and then with the id the table gives it |
| SigmundModelFactory.Model | sigmund/model/__init__.py:32-48 | the factory raises exactly for a name in neither table that mentions neither mistral nor ministral and is not "dummy" |
| SigmundModelFactory.OpenAINames | sigmund/model/__init__.py:4-36 | every name of the OpenAI table builds an OpenAI model with the id the table gives it |
| SigmundModelFactory.AnthropicNames | sigmund/model/__init__.py:16-41 | every name of the Anthropic table builds an Anthropic model with its id, thinking when asked for or when the name ends with "-thinking" |
| SigmundModelFactory.TablesDisjoint | sigmund/model/__init__.py:4-29 | no name is in both tables, so the order of the two look-ups does not matter |
| SigmundModelFactory.MistralNames | sigmund/model/__init__.py:42-44 | a name in neither table that contains "mistral" or "ministral" builds a Mistral model with the name as its id |
| SigmundModelFactory.DummyName | sigmund/model/__init__.py:45-47 | "dummy" builds the dummy model |
| SigmundModelFactory.UnknownNames | sigmund/model/__init__.py:48 | any other name raises `ValueError` with "Unknown model: " and the name |
| HeymansModelFactory.Model | heymans/model/__init__.py:4-29 | a Mistral model is always built with an id ending with "-latest" |
| HeymansModelFactory.FixedNames | heymans/model/__init__.py:6-28 | the five fixed names and "dummy" build their classes with the fixed ids |
| HeymansModelFactory.MistralLatest | heymans/model/__init__.py:21-25 | a "mistral-" name builds a Mistral model whose id starts with the name and ends with "-latest", and asking for that id builds the same model |
| HeymansModelFactory.UnknownNames | heymans/model/__init__.py:29 | any other name raises `ValueError` with "Unknown model: " and the name |
| HeymansOpenAIModel.LinkToolMessages | heymans/model/_openai_model.py:29-43 | the in-place loop gives exactly the reference linking |
| HeymansOpenAIModel.LinkKeepsContents | heymans/model/_openai_model.py:29-43 | the linking keeps the number of messages, every role and every content |
| HeymansOpenAIModel.LinkIds | heymans/model/_openai_model.py:32-43 | a tool message at i gets the id `call_i`, and the message before it one 'dummy' call with that id |
| HeymansOpenAIModel.LinkWithoutTools | heymans/model/_openai_model.py:30-31 | without tool messages after the first position nothing changes |
| HeymansOpenAIModel.SameIdsAsSigmund | heymans/model/_openai_model.py:32-43 | the ids are the ones the sigmund OpenAI model gives the same messages |
| SigmundMessages.MakeMetadata | sigmund/messages.py:40-49 | the metadata always has a message id, the given one or else a fresh one, and carries the workspace content and language it was given |
| SigmundMessages.NonBlank | sigmund/messages.py:183-184 | exactly the chunks that are not blank after stripping are kept |
| SigmundMessages.PromptAt | sigmund/messages.py:101-116 | a history message has a prompt message exactly when its role is assistant, user or tool |
| SigmundMessages.FirstInvalid | sigmund/messages.py:115-116 | the role the prompt loop raises on is the first unknown role |
| SigmundMessages.MaskedPairs | sigmund/messages.py:100 | masking keeps one entry per condensed message |
| SigmundMessages.MaskedPairsAt | sigmund/messages.py:100 | each entry keeps its role and has its masked elements removed |
| SigmundMessages.TotalLengthAppend | sigmund/messages.py:139-142 | the prompt length is additive over concatenation |
| SigmundMessages.Popped | sigmund/messages.py:148-157 | the condense loop never takes more messages than there are |
| SigmundMessages.FindId | sigmund/messages.py:66-70 | the entry found is the first with the message id, and none is found only when no entry has it |
| SigmundMessages.Messages.constructor | sigmund/messages.py:12-20 | a new non-persistent conversation has no workspace, the default title and just the welcome message, in both histories |
| SigmundMessages.Messages.InitConversation | sigmund/messages.py:29-38 | the history is reset to the welcome message with 'welcome-bot' as its answer model, and the condensed history to that message alone |
| SigmundMessages.Messages.Append | sigmund/messages.py:51-61 | the entry is appended with the metadata it returns, and the condensed history is the given one plus the new message, condensed |
| SigmundMessages.Messages.Delete | sigmund/messages.py:63-85 | an unknown id changes nothing; otherwise the first entry with the id is removed and the condensed history loses the first equal message, if any |
| SigmundMessages.Messages.Prompt | sigmund/messages.py:87-117 | the prompt is the reference prompt of the masked condensed history under the given or the built system prompt |
| SigmundMessages.Messages.VisibleMessages | sigmund/messages.py:119-129 | the loop yields exactly the reference visible messages |
| SigmundMessages.Messages.Condense | sigmund/messages.py:134-166 | the condensed history and text become the reference condensation of the old ones; the full history is unchanged |
| SigmundMessages.Messages.UpdateTitle | sigmund/messages.py:186-199 | with at most two messages or a non-default title nothing changes; otherwise the title is made from the prompt without its first two messages |
| SigmundMessages.Messages.Load | sigmund/messages.py:201-223 | an invalid token or an empty stored history starts a new conversation; otherwise the stored one is taken with missing ids filled in, and it is reported modified exactly when some id was missing |
| SigmundMessages.BuildPrompt | sigmund/messages.py:97-117 | the prompt loop gives exactly the reference prompt, or its error |
| SigmundMessages.PopOldest | sigmund/messages.py:148-157 | the pop loop leaves the messages from the reference count on and collects the others newest first |
| SigmundMessages.FindEntry | sigmund/messages.py:66-73 | the search loop finds exactly the reference entry |
| SigmundMessages.RemoveEntry | sigmund/messages.py:76 | removing the entry found removes it at its index, and every remaining entry still has an id |
| SigmundMessages.SystemPromptChunks | sigmund/messages.py:172-184 | a chunk is part of the system prompt exactly when it is non-blank and is the identity, the documentation prompt when there is documentation, or the condensed summary when there is one |
| SigmundMessages.SystemPromptIdentity | sigmund/messages.py:172-184 | without documentation and summary the system prompt is the identity alone |
| SigmundMessages.PromptShape | sigmund/messages.py:97-117 | the prompt is the system message followed by one message per history message of the matching class, with the workspace put in front of the last user message when there is one |
| SigmundMessages.PromptFails | sigmund/messages.py:115-116 | the prompt fails exactly when some role is unknown, with "Invalid role: " and the first such role |
| SigmundMessages.KnownRoles | sigmund/messages.py:101-116 | the roles handled are "assistant", "user" and "tool"; "system" is not one of them |
| SigmundMessages.VisibleMembers | sigmund/messages.py:124-129 | a message is visible exactly when it is in the history, is not a tool message and is not blank |
| SigmundMessages.VisibleAppend | sigmund/messages.py:124-129 | the visible messages of a concatenation are those of its parts, in order |
| SigmundMessages.CondenseFits | sigmund/messages.py:139-147 | a history within the length limit is left as it is |
| SigmundMessages.PoppedMinimal | sigmund/messages.py:150-157 | the loop stops at the first count whose collected length reaches the chunk or that leaves two messages, and never leaves fewer than two |
| SigmundMessages.CondenseKeepsLatest | sigmund/messages.py:134-166 | condensing keeps a suffix of the history, at least two messages, and the summary is the prediction for the collected messages |
| SigmundMessages.CollectedReversed | sigmund/messages.py:157 | the collected messages stand newest first |
| SigmundMessages.AssistantSaidByUser | sigmund/messages.py:161-164 | as written every message of a known role, the assistant's included, is rendered "User said: "; the intended rendering gives the assistant "You said: " |
| SigmundMessages.HistoryLineByRole | sigmund/messages.py:161-164 | the corrected rendering says "You said: " for the assistant's messages and "User said: " for the others |
| SigmundMessages.NewTitleBounds | sigmund/messages.py:196-199 | the title is the prediction stripped of quotes, cut to 100 characters and an ellipsis when longer |
| SigmundMessages.RepairKeepsIds | sigmund/messages.py:213-216 | after the repair every entry has an id, entries that had one are unchanged, and the others get a fresh one |
| SigmundMessages.RepairIdempotent | sigmund/messages.py:213-216 | repairing a repaired history changes nothing |
| SigmundMessages.CondensedDeleteCount | sigmund/messages.py:77-83 | deleting from the condensed history removes one occurrence of the message when it is there and nothing otherwise |
| HeymansMessages.Popped | heymans/messages.py:64-69 | the condense loop never takes more messages than there are |
| HeymansMessages.PersistentArgumentTooMany | heymans/heymans.py:28 | as written, `Messages(self, persistent)` passes three positional arguments to a two-parameter `__init__` and raises TypeError |
| HeymansMessages.HeymansArgumentBinds | heymans/messages.py:41 | `Messages(self)` binds |
| HeymansMessages.CondenseAsWrittenAllUser | heymans/messages.py:70-74 | as written, every popped entry of a history with known roles is written "User said", the assistant's included |
| HeymansMessages.CondenseTextByRole | heymans/messages.py:70-74 | the text the model condenses says "You said" exactly for the assistant's entries and "User said" for the others |
| HeymansMessages.Messages.constructor | heymans/messages.py:41-48 | a new conversation has empty histories and no summary |
| HeymansMessages.Messages.Append | heymans/messages.py:50-53 | the message is appended to the history, and the condensed history is the old one plus the message, condensed |
| HeymansMessages.Messages.Condense | heymans/messages.py:55-74 | the condensed history and text become the reference condensation; the history is unchanged |
| HeymansMessages.Messages.Prompt | heymans/messages.py:76-79 | the prompt is the system message followed by the condensed history |
| HeymansMessages.PopOldest | heymans/messages.py:64-69 | over the limit, the pop loop leaves the messages from the reference count on and collects the others newest first |
| HeymansMessages.CondenseFits | heymans/messages.py:58-63 | a history within the limit is left as it is |
| HeymansMessages.PoppedMinimal | heymans/messages.py:64-69 | the loop stops at the first count whose collected length reaches the chunk |
| HeymansMessages.CondenseKeepsLatest | heymans/messages.py:55-74 | condensing keeps a suffix of the history, and the summary is the prediction for the collected text |
| HeymansMessages.CondenseMayTakeAll | heymans/messages.py:64-69 | unlike sigmund's, the loop has no floor of two messages: two long messages can both be condensed away |
| HeymansMessages.SystemPromptParts | heymans/messages.py:81-93 | the system prompt is the documentation template when there is documentation and the fixed prompt otherwise, with the summary template appended when there is a summary |
| SigmundDocumentation.Prompt | sigmund/documentation.py:47-56 | there is no prompt exactly when there are no documents; otherwise it is the header, the documents as text and the footer |
| SigmundDocumentation.JsonItems | sigmund/documentation.py:33-36 | the JSON list has one item per document, holding its content and its URL |
| SigmundDocumentation.DocToStrParts | sigmund/documentation.py:20-26 | a document renders inside the document tag and ends with its content; with no title and no URL it is the content alone inside the tag |
| SigmundDocumentation.StrSingle | sigmund/documentation.py:28-31 | one document renders as itself, and no documents render as the empty text |
| SigmundDocumentation.Kept | sigmund/documentation.py:80-94 | judging a batch never keeps more documents than the batch has |
| SigmundDocumentation.KeptMembers | sigmund/documentation.py:80-94 | a document is kept exactly when it is in the batch and its reply parsed to a dictionary that calls it relevant |
| SigmundDocumentation.KeptAll | sigmund/documentation.py:80-94 | when every reply calls its document relevant, the whole batch is kept |
| SigmundDocumentation.Batch | sigmund/documentation.py:69-71 | a batch is a prefix of the optional documents of at most `search_docs_max`, and it is not empty while any remain |
| SigmundDocumentation.Documentation.constructor | sigmund/documentation.py:15-18 | a new collection is empty |
| SigmundDocumentation.Documentation.Append | sigmund/documentation.py:58-61 | appending follows the reference: a document whose content is already there is ignored |
| SigmundDocumentation.Documentation.StripIrrelevant | sigmund/documentation.py:63-95 | the batch loop gives exactly the reference stripping |
| SigmundDocumentation.Documentation.Clear | sigmund/documentation.py:97-99 | clearing leaves no document |
| SigmundDocumentation.Documentation.Search | sigmund/documentation.py:101-105 | each document the sources return is appended in order, unless an equal one is already there |
| SigmundDocumentation.Insert | sigmund/documentation.py:162 | one insertion adds one hit |
| SigmundDocumentation.SortByScore | sigmund/documentation.py:162 | sorting keeps the number of hits |
| SigmundDocumentation.DocsOf | sigmund/documentation.py:174 | the documents returned are the documents of the hits, in order |
| SigmundDocumentation.FAISSSearch | sigmund/documentation.py:140-174 | without an OpenAI key nothing is found; otherwise the collecting loop gives exactly the reference search |
| SigmundDocumentation.Reorder | sigmund/documentation.py:165-170 | the pop loop gives exactly the interleaving of the hits with a URL and those without |
| SigmundDocumentation.ReorderStep | sigmund/documentation.py:165-170 | one round of the pop loop takes the head of each list that has one, and the rest interleaves the tails |
| SigmundDocumentation.AppendKeepsUnique | sigmund/documentation.py:58-61 | appending keeps the contents distinct, keeps the documents already there as a prefix, adds at most one, leaves the content present and is idempotent |
| SigmundDocumentation.LengthAfterAppend | sigmund/documentation.py:41-42 | the length grows by the content length of a new document, and not at all for a known content |
| SigmundDocumentation.LengthZero | sigmund/documentation.py:41-42 | the length is zero exactly when every content is empty |
| SigmundDocumentation.StripFromPrefix | sigmund/documentation.py:68-94 | the loop keeps the important documents as a prefix and adds only optional documents judged relevant |
| SigmundDocumentation.StripKeepsImportant | sigmund/documentation.py:63-95 | stripping keeps every important document first, in order, followed only by non-important documents of the collection judged relevant |
| SigmundDocumentation.StripBound | sigmund/documentation.py:68-94 | with at least `search_docs_max` important documents nothing is judged; otherwise fewer than twice that many documents remain |
| SigmundDocumentation.StripAllRelevant | sigmund/documentation.py:68-94 | when every reply calls its document relevant, the important documents and the first batch remain |
| SigmundDocumentation.StripNoneRelevant | sigmund/documentation.py:68-94 | when no reply calls its document relevant, only the important documents remain |
| SigmundDocumentation.CollectUnique | sigmund/documentation.py:147-154 | the collected hits have distinct contents and all come from the search |
| SigmundDocumentation.CollectCovers | sigmund/documentation.py:147-154 | every content the vector store returned is among the collected hits |
| SigmundDocumentation.InsertPermutes | sigmund/documentation.py:162 | an insertion adds exactly the inserted hit to the multiset |
| SigmundDocumentation.InsertSorted | sigmund/documentation.py:162 | inserting into hits ordered by score keeps them ordered |
| SigmundDocumentation.InsertStable | sigmund/documentation.py:162 | an insertion puts the new hit after the hits of equal score |
| SigmundDocumentation.SortByScoreCorrect | sigmund/documentation.py:162 | sorting gives hits ordered by score, a permutation of the input, stable among equal scores |
| SigmundDocumentation.SortSortedUnchanged | sigmund/documentation.py:162 | hits already ordered by score are left as they are |
| SigmundDocumentation.InterleavePermutes | sigmund/documentation.py:165-170 | the interleaving is a permutation of the two lists together |
| SigmundDocumentation.InterleaveAlternates | sigmund/documentation.py:165-170 | while both lists last, the interleaving alternates a hit with a URL and one without |
| SigmundDocumentation.InterleaveKeepsLeft | sigmund/documentation.py:163-170 | the hits with a URL keep their order in the interleaving |
| SigmundDocumentation.InterleaveKeepsRight | sigmund/documentation.py:164-170 | the hits without a URL keep their order in the interleaving |
| SigmundDocumentation.FilterSorted | sigmund/documentation.py:162-164 | splitting ordered hits by URL keeps each part ordered |
| SigmundDocumentation.FAISSOrder | sigmund/documentation.py:147-174 | the result is a permutation of the collected hits; both URL classes keep their score order; a hit with a URL comes first when there is one |
| HeymansDocumentation.Relevant | heymans/documentation.py:35-47 | stripping never keeps more documents than there are |
| HeymansDocumentation.Documentation.constructor | heymans/documentation.py:13-16 | a new collection is empty |
| HeymansDocumentation.Documentation.Append | heymans/documentation.py:31-33 | a document is appended only when it is not there yet |
| HeymansDocumentation.Documentation.StripIrrelevant | heymans/documentation.py:35-47 | the loop keeps exactly the documents whose reply calls them relevant |
| HeymansDocumentation.Documentation.Clear | heymans/documentation.py:49-51 | clearing leaves no document |
| HeymansDocumentation.Documentation.Search | heymans/documentation.py:53-57 | each document the sources return is appended in order, unless it is already there |
| HeymansDocumentation.FirstNew | heymans/documentation.py:83-89 | the document taken for a query is one of its results that is neither known nor taken yet; none is taken only when every result is known or taken |
| HeymansDocumentation.FAISSSearch | heymans/documentation.py:79-90 | the loop gives exactly the reference one-per-query search |
| HeymansDocumentation.AppendKeepsUnique | heymans/documentation.py:31-33 | appending keeps the documents distinct, keeps the ones already there as a prefix and leaves the document present |
| HeymansDocumentation.LengthAfterAppend | heymans/documentation.py:25-26 | a new document adds its length to the length of the collection |
| HeymansDocumentation.RelevantMembers | heymans/documentation.py:41-47 | a document remains exactly when it was there and its reply does not start with "no" in any case |
| HeymansDocumentation.RelevantAppend | heymans/documentation.py:42-46 | the judgement is made document by document, so stripping a concatenation strips each part |
| HeymansDocumentation.NoStrips | heymans/documentation.py:43 | a reply starting with "No", "no" or "NO" strips the document |
| HeymansDocumentation.OnePerQueryBound | heymans/documentation.py:79-90 | the search adds at most one document per query, all distinct and none already known |
| HeymansDocumentation.KnownQueryAddsNothing | heymans/documentation.py:83-89 | a query whose results are all known adds nothing |
| HeymansDocumentation.NewFirstResultAdded | heymans/documentation.py:83-89 | a query whose first result is new adds exactly that result |
| HeymansDocumentation.OpenSesameRouting | heymans/documentation.py:99-115 | a JavaScript keyword in the lower-cased joined queries gives the JavaScript document, else a Python keyword gives the Python document, else nothing |
| HeymansBaseTool.Results | heymans/tools/base_tool.py:47-48 | there are never more results than uses |
| HeymansBaseTool.NeedsOf | heymans/tools/base_tool.py:49 | one reply flag per match, each the flag its use returned |
| HeymansBaseTool.SpansOf | heymans/tools/base_tool.py:50 | one span per match, from its start to its end |
| HeymansBaseTool.BackScan | heymans/tools/base_tool.py:57-63 | the backward scan stops at or before where it starts |
| HeymansBaseTool.ForwardScan | heymans/tools/base_tool.py:64-70 | when the forward scan does not raise, it stops at a character of the message at or after where it starts |
| HeymansBaseTool.FenceAt | heymans/tools/base_tool.py:75 | an empty JSON fence found at a position ends inside the message, at least ten characters later |
| HeymansBaseTool.Run | heymans/tools/base_tool.py:29-78 | `run` gives exactly the reference result: the updated reply, the results and whether a reply is needed, or the exception it raises |
| HeymansBaseTool.UseMatches | heymans/tools/base_tool.py:39-50 | the loop over the matches raises exactly when the reference does, with the same error, and otherwise gives the results, the reply flags and the spans |
| HeymansBaseTool.StripSpans | heymans/tools/base_tool.py:55-72 | the loop over the spans, last to first, gives exactly the reference stripping |
| HeymansBaseTool.StripOne | heymans/tools/base_tool.py:56-72 | one step on a span gives exactly the reference step, `end` carrying over from the step before |
| HeymansBaseTool.FindOpen | heymans/tools/base_tool.py:57-63 | the backward loop gives exactly the reference backward scan |
| HeymansBaseTool.FindClose | heymans/tools/base_tool.py:64-70 | the forward loop gives exactly the reference forward scan, including the IndexError past the end |
| HeymansBaseTool.UseAllStep | heymans/tools/base_tool.py:42-46 | one step of the loop over the matches prepares the match's arguments and calls `use` on them, or raises their error |
| HeymansBaseTool.UseAllKeepsError | heymans/tools/base_tool.py:44-45 | once preparing the arguments of a match raises, the whole loop raises that error |
| HeymansBaseTool.RunNoMatches | heymans/tools/base_tool.py:55-78 | a reply without matches comes back as it is, with no results and no reply needed |
| HeymansBaseTool.ArgsInOrder | heymans/tools/base_tool.py:44-84 | the arguments are the groups in order, name and value each through `as_json_value`; preparing them fails exactly when some group fails |
| HeymansBaseTool.UseAllInOrder | heymans/tools/base_tool.py:42-46 | `use` is called on every match in order with its arguments; the loop raises exactly when some match's arguments fail, with that match's error |
| HeymansBaseTool.ResultsMembers | heymans/tools/base_tool.py:47-48 | the results are exactly the results `use` returned that are not None |
| HeymansBaseTool.BackScanSound | heymans/tools/base_tool.py:57-63 | the backward scan finds an opening brace, or the start of the message, with only passable characters after it; when it gives up, it has met a character that is neither whitespace nor a quote |
| HeymansBaseTool.BackScanLands | heymans/tools/base_tool.py:57-63 | when the backward scan succeeds, it stops at an opening brace or at position 0 |
| HeymansBaseTool.ForwardScanRaises | heymans/tools/base_tool.py:64-65 | the forward scan can raise only IndexError |
| HeymansBaseTool.BackScanFindsBrace | heymans/tools/base_tool.py:57-63 | with only passable characters after an opening brace, the backward scan stops at that brace |
| HeymansBaseTool.ForwardScanSound | heymans/tools/base_tool.py:64-70 | the forward scan finds a closing brace, or a blocking character, with only whitespace and quotes before it; it raises only when it runs off the end |
| HeymansBaseTool.ForwardScanFindsBrace | heymans/tools/base_tool.py:64-70 | with only whitespace and quotes before a closing brace, the forward scan stops at that brace |
| HeymansBaseTool.StripSpanCuts | heymans/tools/base_tool.py:56-72 | a step on a span inside the message raises only IndexError and sets `end`; it leaves the message as it is or cuts out one brace block around the span |
| HeymansBaseTool.StripSpanSetEnd | heymans/tools/base_tool.py:64-72 | once `end` is set, a step raises only IndexError and then leaves `end` set |
| HeymansBaseTool.StripFromSetEnd | heymans/tools/base_tool.py:56-72 | once `end` is set, no later step raises NameError |
| HeymansBaseTool.StripNoNameError | heymans/tools/base_tool.py:56-72 | the NameError the loop could raise never happens, because the first span it handles lies within the reply |
| HeymansBaseTool.NoTicksUnchanged | heymans/tools/base_tool.py:75 | text without backticks holds no empty JSON fence and is kept |
| HeymansBaseTool.EmptyFenceDropped | heymans/tools/base_tool.py:73-75 | an empty JSON fence after text without backticks is removed, and the rest is handled on its own |
| HeymansBaseTool.FenceFound | heymans/tools/base_tool.py:75 | an empty JSON fence is found where it starts and ends where it ends |
| HeymansBaseTool.PrefixKept | heymans/tools/base_tool.py:75 | text before the first backtick is kept as it is |
| HeymansBaseTool.FinishParts | heymans/tools/base_tool.py:75-77 | the updated reply is never empty: it is the stripped text when any remains, otherwise the placeholder naming the tool class |
| HeymansBaseTool.TrailingBlockStripped | heymans/tools/base_tool.py:29-78 | a reply whose one match sits in a brace block running to its end comes back as the stripped text before the block; a reply that is only that block becomes the placeholder |
| HeymansBaseTool.PlaceholderMojibake | heymans/tools/base_tool.py:77 | the placeholder as written carries 'â' where the ellipsis belongs, so it differs from the intended one for every class name |
| Sigmund.UserAppendArgs | sigmund/sigmund.py:99 | the user message is meant to be stored with no workspace and with the client's message id |
| Sigmund.UserAppendArgsAsWritten | sigmund/sigmund.py:99 | as written, the arguments are passed by position, so the message id lands in the workspace-content slot and the id slot is empty |
| Sigmund.Sigmund.constructor | sigmund/sigmund.py:35-82 | a new chatbot holds the given configuration, search setting, messages and documentation, with no activity recorded |
| Sigmund.Sigmund.RateLimitExceeded | sigmund/sigmund.py:106-110 | the limit is exceeded exactly when the tokens of the past hour exceed the hourly maximum |
| Sigmund.Sigmund.SendUserMessage | sigmund/sigmund.py:84-104 | over the limit, only the limit message is yielded and nothing is stored; otherwise the user entry is appended with the client's id passed as its message id (the corrected call of line 99), then the search phase (when enabled) and the answer phase follow, and the activity grows by the tokens the answers used |
| Sigmund.Sigmund.Search | sigmund/sigmund.py:112-133 | the phase yields one searching indicator; the documentation is cleared, searched with the message and the search model's queries, then stripped; a prompt that does not build raises after the first search |
| Sigmund.Sigmund.AppendEach | sigmund/sigmund.py:127-128 | the search tool's documents are appended one by one under the no-duplicate-content rule |
| Sigmund.Sigmund.Answer | sigmund/sigmund.py:135-189 | the phase yields the thinking indicator, then one round's replies, stores its entries and records its tokens; another round follows exactly when feedback is needed and the rate limit still allows it; a failing prompt stops with an exception and stores nothing |
| Sigmund.Sigmund.Round | sigmund/sigmund.py:142-184 | one round records the tokens the prediction used and stores and yields exactly what its reply calls for |
| Sigmund.Sigmund.BuildPrompt | sigmund/sigmund.py:123-143 | building the prompt raises exactly when the condensed history holds a role it does not know |
| Sigmund.Sigmund.StoreReply | sigmund/sigmund.py:151-184 | a tool call stores the tool message and its result; a text reply stores the reply; the replies yielded and the need for feedback follow the reference |
| Sigmund.Sigmund.Store | sigmund/sigmund.py:159-169 | storing appends one entry with the role, the text and fresh metadata, and returns that metadata |
| Sigmund.PromptBuildsIff | sigmund/sigmund.py:123-143 | the prompt builds exactly when the reference prompt of the masked condensed history succeeds |
| Sigmund.ToolReplies | sigmund/sigmund.py:159-166 | a tool's message is always yielded first; a second reply, the result's content, comes exactly when there is a result with content |
| Sigmund.ToolResultStored | sigmund/sigmund.py:162-166 | a result with empty content is still stored, but it is not yielded |
| Sigmund.RepliesAreStored | sigmund/sigmund.py:159-170 | every reply a round yields is an entry it stores, with the same metadata |
| Sigmund.FeedbackCases | sigmund/sigmund.py:152-184 | a tool asks for another round only when the model supports tool feedback; a text reply asks only when the model supports the not-done-yet marker and the reply holds it |
| Sigmund.SumAppend | sigmund/sigmund.py:147 | the activity of a message is the sum of what each round recorded |
| Sigmund.SearchKeepsImportant | sigmund/sigmund.py:117-131 | the search phase keeps every important document the searches found |
| Sigmund.UserMessageIdLost | sigmund/sigmund.py:99 | as written, the client's message id is stored as workspace content, and the entry gets a fresh id instead |
| Sigmund.UserMessageIdKept | sigmund/sigmund.py:99 | with the arguments passed by keyword, the entry keeps the client's id and has no workspace |
| Heymans.Heymans.constructor | heymans/heymans.py:14-31 | a new chatbot holds the given search setting, tools, messages and documentation, and starts with the answer prompt |
| Heymans.Heymans.SendUserMessage | heymans/heymans.py:33-41 | the user message is appended first; when searching first, a tool exception of the search phase ends the call with that exception and the documentation holds what the tools found, and otherwise the documents judged relevant remain for the answer |
| Heymans.Heymans.Search | heymans/heymans.py:43-52 | the phase switches to the search prompt; without searching first nothing is found; otherwise the tools run on the search model's reply and the documents they found are stripped unless a tool raised |
| Heymans.Heymans.Answer | heymans/heymans.py:54-65 | the reply is stored and handed to the tools; a tool exception propagates; without a needed reply the answer is the reply with the results attached; with one the results are stored and the feedback answer follows after a blank line |
| Heymans.Heymans.Round | heymans/heymans.py:55-59 | one answer stores the model's reply as it came and gives exactly what the tools make of it |
| Heymans.Heymans.RunTools | heymans/heymans.py:67-80 | the tools' loop gives exactly the reference chain of tool runs, the results joined by blank lines and whether any tool needs a reply |
| Heymans.Heymans.UseTool | heymans/heymans.py:76-79 | one turn of the loop runs the next tool on the reply the previous one left and extends the chain by exactly that step |
| Heymans.Heymans.RunTool | heymans/heymans.py:77 | running a tool is `BaseTool.run` on its matches with its own `use` |
| Heymans.RunAllKeepsError | heymans/heymans.py:76-79 | once a tool raised, the tools after it do not run |
| Heymans.RunAllStep | heymans/heymans.py:77-79 | a tool run that succeeds moves the reply on and adds its results, its flag and its documents |
| Heymans.RunAllRaise | heymans/heymans.py:77 | a tool run that raises stops the chain, keeping the documents it added |
| Heymans.RunAllGrows | heymans/heymans.py:76-79 | when all tools ran, each earlier prefix of them ran too, and its results and flags come first |
| Heymans.RunAllAt | heymans/heymans.py:76-79 | each tool runs on the reply the tools before it left, and its flag sits at its own index |
| Heymans.NeedsReplyIsAny | heymans/heymans.py:80 | a reply is needed exactly when some tool asks for one |
| Heymans.NoMatchesNoChange | heymans/heymans.py:67-80 | tools whose patterns match nothing leave the reply as it is, give no results, add no documents and need no reply |
| Heymans.ResultAttached | heymans/heymans.py:60-61 | an empty result attaches nothing; otherwise the result follows the reply after a blank line |
| ChatApi.DataEvents | sigmund/routes/api.py:45-54 | one data event per reply |
| ChatApi.FirstCancel | sigmund/routes/api.py:55-57 | the check that stops the stream is one of the checks made, and it found the flag set |
| ChatApi.ChatServer.constructor | sigmund/routes/api.py:17-25 | a new server has an empty session, an empty redis store and no settings |
| ChatApi.ChatServer.ChatStart | heymans/routes/api.py:16-25 | a request body that is not a dictionary raises AttributeError and changes nothing; otherwise the message (default empty) and the message id (default None) are stored in the session, and on the heymans server also `search_first` (default true); the other session keys are kept, the user's cancel flag is deleted and the answer is `{}`; sigmund's route (`sigmund/routes/api.py:17-25`) is the same without `search_first` |
| ChatApi.ChatServer.ChatCancel | sigmund/routes/api.py:28-34 | the user's cancel flag is set to "1", which the stream reads as set, and the answer is the cancelled status with code 200; heymans' route (`heymans/routes/api.py:28-34`) is the same |
| ChatApi.ChatServer.StreamArgs | sigmund/routes/api.py:39-41 | a session without the message raises KeyError for it, one without the message id raises KeyError for that; otherwise both come from the session |
| ChatApi.ChatServer.SetSetting | sigmund/routes/api.py:189-200 | a body that is not a dictionary fails with the invalid-data message and stores nothing; otherwise every key of the body is stored, the last occurrence winning |
| ChatApi.ChatServer.GetSetting | sigmund/routes/api.py:203-215 | a stored setting is returned; a missing one falls back to the configured default; with neither, the answer fails with no value |
| ChatApi.Generate | sigmund/routes/api.py:44-58 | the stream loop gives exactly the reference events: one event per reply until the flag is found set, then close; without a cancel every reply and then close, unless the chatbot raised |
| ChatApi.SigmundReplies | sigmund/routes/api.py:45-52 | each sigmund event becomes one reply |
| ChatApi.FirstCancelStays | sigmund/routes/api.py:55-57 | once a check found the flag set, later checks do not change which check stops the stream |
| ChatApi.FirstCancelEarliest | sigmund/routes/api.py:55-57 | the stream stops at the earliest check that finds the flag set, and runs to the end exactly when no check does |
| ChatApi.OneEventPerReply | sigmund/routes/api.py:44-58 | the stream sends at most one event per reply, each the reply's own event in order, and ends with close unless it raised |
| ChatApi.CancelStopsAfterEvent | sigmund/routes/api.py:54-58 | a flag set when the reply at index k is checked stops the stream within k + 1 data events, with close last and no exception |
| ChatApi.UncancelledSendsAll | sigmund/routes/api.py:44-58 | without a cancel, every reply is sent in order; close follows exactly when the chatbot did not raise, and its exception passes through |
| ChatApi.SessionRoundTrip | sigmund/routes/api.py:21-41 | what `/chat/start` stores in the session is what `/chat/stream` reads back |
| ChatApi.SettingsWritten | sigmund/routes/api.py:198-199 | a key of the body is stored with its last value, and the other settings are kept |
| ChatApi.AddAttachment | sigmund/routes/api.py:141-162 | an answer carries a message exactly when it fails and an attachment id exactly when it succeeds |
| ChatApi.AttachmentCodes | sigmund/routes/api.py:141-162 | the answer is 400 exactly when the file part is missing or its name is empty, 500 with the failure message when storing fails, 200 with the new id otherwise, and success exactly at 200; heymans' route (`heymans/routes/api.py:127-144`) has the same codes |
| ChatApi.HeymansStreamRaises | heymans/routes/api.py:45 | as written, the heymans stream calls the chatbot with one argument too many, so it raises TypeError before any event and never sends close |
| ChatApi.HeymansReplies | heymans/heymans.py:33-65 | what the heymans stream evidently means to iterate over: exactly one (reply, None) pair when the chatbot answers, none and its exception when it raises |
| ChatApi.HeymansStreamCloses | heymans/routes/api.py:44-58 | iterating the one (reply, None) pair, the heymans answer is sent as one message event followed by close |
| ChatApi.SigmundPayloads | sigmund/routes/api.py:46-52 | an indicator is sent as its action dictionary, and a message as its rendered response with its metadata |
| PublicSearch.UrlsOf | sigmund/routes/public.py:25-28 | one URL per kept document, in order |
| PublicSearch.PickGrows | sigmund/routes/public.py:24-33 | the scan only adds to the documents kept so far |
| PublicSearch.PickBounded | sigmund/routes/public.py:31-33 | the scan keeps at most one document per document it reads, and stops at the page size (one document when it is 0) |
| PublicSearch.PickUnique | sigmund/routes/public.py:25-28 | no two kept documents share a URL |
| PublicSearch.PickShort | sigmund/routes/public.py:28-30 | every kept document has a URL and content no longer than the maximum |
| PublicSearch.PickFrom | sigmund/routes/public.py:24-31 | what the scan keeps are the truncated forms of documents it read, in order |
| PublicSearch.PickFails | sigmund/routes/public.py:25 | the scan raises only KeyError on `url`, only when some document has no URL, and never when all have one |
| PublicSearch.PickComplete | sigmund/routes/public.py:24-33 | when fewer than a page are kept, every document read had its URL among the kept ones: only duplicates were skipped |
| PublicSearch.Select | sigmund/routes/public.py:21-33 | the loop, with its `continue` and `break`, gives exactly the reference scan |
| PublicSearch.PublicSearch.constructor | sigmund/config.py:205 | the database cache starts as "default" |
| PublicSearch.PublicSearch.Search | sigmund/routes/public.py:11-40 | the cache is set to the source (default "default"); the documents searched for the query are scanned from the offset page; a KeyError passes through, and otherwise the kept documents are quoted to the public model and its reply is rendered with the blank line before each list item dropped |
| PublicSearch.KeptSpec | sigmund/routes/public.py:17-33 | at most a page is kept, from the documents after the offset, with distinct URLs, each content cut to the maximum and each a truncation of a document read; when fewer than a page are kept every document read has its URL among the kept ones; the endpoint raises only on a missing URL |
| PublicSearch.ResultsUnchanged | sigmund/routes/public.py:38-39 | a reply with no blank line before a list item is rendered as it is |
| StaticPredict.FirstParsedEarliest | sigmund/static.py:42-55 | the reply taken is the earliest of the attempts that parses, and none is taken only when no attempt parses |
| StaticPredict.PredictMeaning | sigmund/static.py:8-56 | without JSON the model is called once and its reply returned; with JSON the value is the first cleaned reply that parses, after at most `max_json_retry` calls, and ValueError comes exactly when every attempt fails |
| StaticPredict.UnfencedJsonBlock | sigmund/static.py:45-50 | a reply fenced as a JSON code block is unwrapped to its body |
| StaticPredict.UnfencedPlainBlock | sigmund/static.py:47-50 | a reply fenced as a plain code block is unwrapped to its body |
| StaticPredict.UnfencedBare | sigmund/static.py:45-50 | a reply without fences is parsed as it is |
| StaticPredict.Unfence | sigmund/static.py:45-50 | the three fence checks, one after the other, give exactly the reference unfencing |
| StaticPredict.PredictJson | sigmund/static.py:41-56 | the retry loop gives exactly the reference result and number of model calls |
| StaticPredict.Static.constructor | sigmund/static.py:5 | the database starts uninitialised |
| StaticPredict.Static.Predict | sigmund/static.py:30-56 | the database is initialised on the first call only; the result and the number of model calls are the reference ones |
| FetchRetry.RetryMeaning | sigmund/templates/main.js:59-68 | with attempts left, the outcome is the first response, after as many calls as it took, or the last attempt's error after every remaining call when all are rejected; it is never `undefined` then |
| FetchRetry.FetchWithRetry | sigmund/templates/main.js:59-68 | the loop gives exactly the reference outcome and number of calls |
| FetchRetry.NoRetries | sigmund/templates/main.js:59-68 | with no retries, nothing is fetched and the outcome is `undefined` |
| ChatInput.BoundedMeaning | sigmund/templates/main.js:10-17 | the text left in the box is a prefix of what was typed, shorter than a positive maximum, one short of the maximum once the maximum is reached, and unchanged below it |
| ChatInput.MessageInput.constructor | sigmund/templates/main.js:18-19 | at load the counter shows the initial length and the text is cut to the maximum |
| ChatInput.MessageInput.UpdateCounter | sigmund/templates/main.js:10-17 | the counter shows the length before the cut, and the text is cut to the maximum |
| ChatInput.MessageInput.Input | sigmund/templates/main.js:18-28 | typing updates the counter and cuts the text; the send button is disabled below three characters when the page gates it, and keeps its state otherwise |
| ChatInput.MessageInput.Click | sigmund/templates/main.js:40-45 | a click takes the text out of the box for sending and leaves the box empty |
| ChatInput.MessageInput.KeyDown | sigmund/templates/main.js:31-38 | Enter without Shift on an enabled button sends the text and empties the box; any other key changes nothing |
| LoadingIndicator.DotsCycle | sigmund/templates/main.js:166-171 | the dots run 1, 2, 3, 1, 2, 3 …: after n > 0 ticks there are ((n - 1) mod 3) + 1 |
| LoadingIndicator.LabelShape | sigmund/templates/main.js:166-171 | once the timer has ticked, the label is the base message followed by one to three dots and nothing else |
| LoadingIndicator.Indicator.constructor | sigmund/templates/main.js:158-180 | a new indicator shows the base message without dots, is in the page and has its timer armed |
| LoadingIndicator.Indicator.Tick | sigmund/templates/main.js:167-171 | a tick advances the dot count cyclically and shows the base message with that many dots |
| LoadingIndicator.Indicator.SetBaseMessage | sigmund/templates/main.js:178 | a new base message takes effect only at the next tick: the label shown does not change |
| LoadingIndicator.Indicator.Remove | sigmund/templates/main.js:182-189 | removing stops the timer and takes the element out, changing nothing else |
| Attachments.Names | sigmund/templates/attachments.js:67-90 | the list shows one name per attachment, in order |
| Attachments.EachFileOneOutcome | sigmund/templates/attachments.js:53-65 | every file of a selection is either accepted or raises exactly one alert, and the accepted ones are exactly those at most 4 MB with an allowed extension |
| Attachments.OutcomeStep | sigmund/templates/attachments.js:19-21 | handling one more file appends it to the accepted files or its alert to the alerts |
| Attachments.SizeCheckFirst | sigmund/templates/attachments.js:57-58 | a file over 4 MB is refused for its size, whatever its extension |
| Attachments.PastedImageName | sigmund/templates/attachments.js:34-43 | a pasted image keeps its name when it has one; an unnamed one is named after its lower-cased MIME subtype, with jpeg written jpg; size and type are kept |
| Attachments.SplitSecond | sigmund/templates/attachments.js:35 | splitting at the only separator gives the two parts |
| Attachments.SplitNone | sigmund/templates/attachments.js:54 | a text without the separator splits into itself |
| Attachments.RemovesOne | sigmund/templates/attachments.js:92-95 | removing at an index of the list takes out exactly that file and keeps the rest in order |
| Attachments.AttachmentList.constructor | sigmund/templates/attachments.js:10 | the page starts with no attachments and no alerts |
| Attachments.AttachmentList.Render | sigmund/templates/attachments.js:67-90 | rendering lists the attachments and changes nothing else |
| Attachments.AttachmentList.ValidateAndAdd | sigmund/templates/attachments.js:53-65 | an accepted file is appended; a refused one raises its alert |
| Attachments.AttachmentList.AddAll | sigmund/templates/attachments.js:19-23 | the loop appends exactly the accepted files of the selection and raises exactly its alerts, and the list follows |
| Attachments.AttachmentList.Change | sigmund/templates/attachments.js:13-24 | choosing files appends the accepted ones and raises the alerts of the others, in order |
| Attachments.AttachmentList.Paste | sigmund/templates/attachments.js:27-51 | pasting handles the clipboard's files, with images named, as a selection |
| Attachments.AttachmentList.Remove | sigmund/templates/attachments.js:92-95 | removing follows `splice(index, 1)`, negative indices counting from the end |
| Attachments.AttachmentList.Clear | sigmund/templates/attachments.js:97-100 | clearing leaves no attachments and keeps the alerts |
| Workspace.LanguageCases | sigmund/templates/workspace.js:38-51 | 'html' maps to the mixed HTML mode, 'opensesame' to Python, an offered label to itself and anything else to Markdown |
| Workspace.LanguageStable | sigmund/templates/workspace.js:38-51 | mapping the label the selector shows again gives that label, and the selector can show it |
| Workspace.Editor.constructor | sigmund/templates/workspace.js:1-35 | the editor starts with the page's content and the raw `data-mode` (Markdown when absent) as its mode, and the selector shows the mapped label |
| Workspace.Editor.UpdatePlaceholder | sigmund/templates/workspace.js:70-76 | the placeholder shows exactly when the editor is empty |
| Workspace.Editor.SetValue | sigmund/templates/workspace.js:33 | setting the content leaves the mode and the selector alone, and the placeholder follows |
| Workspace.Editor.SetWorkspace | sigmund/templates/workspace.js:53-59 | the editor gets the content and the mapped mode, and the selector the mapped label |
| Workspace.Editor.ChooseLanguage | sigmund/templates/workspace.js:15-19 | picking an option changes only the editor's mode, to the mapped one |
| Workspace.Editor.Clear | sigmund/templates/workspace.js:20-23 | clearing empties the editor and shows the placeholder |
| DomNodes.Strip | sigmund/templates/websocket_client.js:95-101 | stripping keeps a node's kind, tag and classes, and leaves text nodes alone |
| DomNodes.StripRemoves | sigmund/templates/websocket_client.js:96-100 | after stripping a class, no descendant carries it |
| DomNodes.StripInRemoves | sigmund/templates/websocket_client.js:96-100 | after stripping a class from a list of nodes, none of them or their descendants carries it |
| DomNodes.ConcatAbsent | sigmund/templates/websocket_client.js:96-100 | joining lists of nodes that are free of a class gives a list free of it |
| DomNodes.StripKeepsAbsent | sigmund/templates/websocket_client.js:95-101 | stripping one class does not bring back another class already removed |
| DomNodes.StripInKeepsAbsent | sigmund/templates/websocket_client.js:95-101 | the same holds for a list of nodes |
| DomNodes.StripAbsent | sigmund/templates/websocket_client.js:96-100 | stripping a class no descendant carries changes nothing |
| DomNodes.StripInAbsent | sigmund/templates/websocket_client.js:96-100 | the same holds for a list of nodes |
| DomNodes.StripUpToRemoves | sigmund/templates/websocket_client.js:95-101 | after the first k classes of the list, none of them remains below the node, whose kind, tag and classes are kept |
| DomNodes.StripUpToAbsent | sigmund/templates/websocket_client.js:95-101 | a node free of every class of the list is left as it is |
| DomNodes.CopyAndStripMeaning | sigmund/templates/websocket_client.js:81-105 | the copy has none of the five classes below it, keeps the box's kind, tag and classes, and equals the box when none was there |
| DomNodes.CopyAndStripDiv | sigmund/templates/websocket_client.js:81-105 | the nested loops give exactly the reference stripped copy |
| Reconnect.Retry.constructor | sigmund/templates/websocket_client.js:2 | the script starts with no retry interval |
| Reconnect.Retry.StartReconnect | sigmund/templates/websocket_client.js:62-66 | a held interval is kept; otherwise exactly one new interval is armed and held |
| Reconnect.Retry.ClearOnOpen | sigmund/templates/websocket_client.js:11-14 | after opening no interval is held or armed |
| Reconnect.AtMostOne | sigmund/templates/websocket_client.js:62-66 | at most one retry interval is ever armed, and one is armed exactly when one is held |
| SocketClient.ChildFrames | sigmund/templates/websocket_client.js:19-29 | one frame per message box replayed |
| SocketClient.ChildFramesAt | sigmund/templates/websocket_client.js:19-29 | the frame at index i is the frame of box i, whatever follows it |
| SocketClient.ReplayMeaning | sigmund/templates/websocket_client.js:18-29 | opening sends `clear_messages`, then per box in page order an `ai_message` with the stripped copy's HTML for an assistant box and a `user_message` with its text otherwise |
| SocketClient.Connection.constructor | sigmund/templates/main.js:48-50 | the page makes one socket, connecting, with no timer and nothing sent |
| SocketClient.Connection.Tick | sigmund/templates/websocket_client.js:64 | a tick of the retry interval makes a new socket |
| SocketClient.Connection.Send | sigmund/templates/websocket_client.js:69-78 | an open socket takes the frame, a connecting one throws, a closing or closed one drops it |
| SocketClient.Connection.OnOpen | sigmund/templates/websocket_client.js:9-30 | opening clears the retry timer and sends exactly the replay of the boxes |
| SocketClient.Connection.OnClose | sigmund/templates/websocket_client.js:48-51 | closing starts the reconnect timer unless one is held |
| SocketClient.Connection.OnError | sigmund/templates/websocket_client.js:53-56 | an error closes the socket |
| ChatPage.TruthyUrls | sigmund/templates/main.js:263-264 | a URL is among the collected ones exactly when some earlier source carries it present and non-empty |
| ChatPage.LinksMeaning | sigmund/templates/main.js:255-279 | the sources div links every truthy source URL, no other and none twice, and is left out exactly when no source has a truthy URL |
| ChatPage.RenderSources | sigmund/templates/main.js:260-277 | the `forEach` with its `uniqueURLs` set yields the first-occurrence list of truthy URLs, and `hasValidSources` holds exactly when that list is non-empty |
| ChatPage.CloseAt | sigmund/templates/main.js:384-386 | the position of the first `close` action: no earlier event is a `close`, and the one there is |
| ChatPage.RepliesBoxes | sigmund/templates/main.js:393-398 | the events up to a point add at most one box each |
| ChatPage.RepliesInOrder | sigmund/templates/main.js:384-398 | every AI box a stream adds is built from one of its message events, and a stream of actions alone adds no box |
| ChatPage.RepliesBoxAt | sigmund/templates/main.js:393-398 | the box of a message event sits at the position given by the number of message events before it |
| ChatPage.RepliesGrow | sigmund/templates/main.js:398 | the boxes after fewer events are a prefix of those after more: boxes are only appended |
| ChatPage.RemoveFirstMeaning | sigmund/templates/main.js:427-431 | deleting a message removes the first box carrying its id and keeps the others in order; without such a box nothing changes |
| ChatPage.NodesOf | sigmund/templates/main.js:136-156 | the page shows one element per box, in box order |
| ChatPage.UserBoxReplay | sigmund/templates/websocket_client.js:19-28 | a user box is replayed to the companion socket as its text alone, its delete button and workspace stripped |
| ChatPage.TextOnlyStays | sigmund/templates/websocket_client.js:81-105 | stripping a class never touches an element that holds only text |
| ChatPage.StartFails | sigmund/templates/main.js:59-68 | the start request fails exactly when all three tries are rejected, and it never settles to undefined |
| ChatPage.Page.constructor | sigmund/templates/main.js:1-51 | at load no stream, no loading indicator and no boxes; the input is clipped to the maximum length and the companion socket is connecting |
| ChatPage.Page.DisableInput | sigmund/templates/main.js:191-196 | the input and the send button are disabled, send is hidden and cancel shown; nothing else changes |
| ChatPage.Page.EnableInput | sigmund/templates/main.js:198-202 | the input is enabled, send shown and cancel hidden; the send button's disabled flag is left alone |
| ChatPage.Page.Type | sigmund/templates/main.js:10-28 | typing clips the text to the maximum length and gates the send button on three characters when no login is needed |
| ChatPage.Page.Begin | sigmund/templates/main.js:343-359 | a turn starts streaming, shows the user box (none for an empty message), attaches a fresh indicator reading "… is reading your message" and disables the input |
| ChatPage.Page.SendMessage | sigmund/templates/main.js:336-419 | the stream opens and cancel is armed exactly when the start request does not fail; after a failure streaming is off and no stream opens, though the input stays disabled |
| ChatPage.Page.ClickSend | sigmund/templates/main.js:40-45 | a click empties the box and sends its former text, without forwarding to the socket |
| ChatPage.Page.EndStream | sigmund/templates/main.js:304-316 | the turn ends: attachments cleared, indicator stopped and detached, input enabled, stream closed, streaming off; boxes unchanged |
| ChatPage.Page.Relabel | sigmund/templates/main.js:387-388 | only the stream's indicator base message changes; the shown text and the dot count stay until the next tick |
| ChatPage.Page.ShowReply | sigmund/templates/main.js:222-241 | a reply with a workspace loads it into the editor; with forwarding an open socket gets the reply frame and a connecting socket throws, so the box is then not appended; otherwise the reply's box is appended |
| ChatPage.Page.AppendReply | sigmund/templates/main.js:395-398 | exactly the reply's box, with its deduplicated source links, is appended |
| ChatPage.Page.OnStreamEvent | sigmund/templates/main.js:379-401 | `close` ends the turn without a box; `set_loading_indicator` only relabels; other actions change nothing; a message event appends its box |
| ChatPage.Page.Consume | sigmund/templates/main.js:379-401 | a stream's events in order append the boxes and forward the frames of the message events before the first `close`, leave the last label set, and end the turn at that `close` |
| ChatPage.Page.PassEvent | sigmund/templates/main.js:384-398 | an event other than `close` appends and forwards at most its own reply, or relabels the indicator |
| ChatPage.Page.OnStreamError | sigmund/templates/main.js:403-415 | a stream error closes the source but keeps it, stops this stream's indicator, enables the input, ends streaming and appends one error box |
| ChatPage.Page.ClickCancel | sigmund/templates/main.js:318-334 | an armed cancel sends one cancel request, disarms and hides the button and sends a cancel frame over an open socket; when not armed nothing happens |
| ChatPage.Page.CancelAnswered | sigmund/templates/main.js:325-330 | the turn ends only when the cancel request answers `ok` |
| ChatPage.Page.DeleteAnswered | sigmund/templates/main.js:421-436 | a successful delete removes the first box with the id; a failed one changes nothing |
| ChatPage.Page.OnSocketOpen | sigmund/templates/websocket_client.js:9-30 | opening the companion socket replays the current boxes, after a `clear_messages` frame |
| ChatPage.Page.OnSocketMessage | sigmund/templates/websocket_client.js:32-46 | a `user_message` fills the box and the workspace and sends it, without forwarding; anything else changes nothing |
| ClientPage.TypingMojibake | static/client.js:64 | the typing line as written differs from the intended one, with two characters more where the ellipsis belongs |
| ClientPage.Page.constructor | static/client.js:1-14 | at load the message box and response area are hidden, the start button shown, no lines and no posts |
| ClientPage.Page.Input | static/client.js:16-19 | the send button is enabled exactly from three typed characters on |
| ClientPage.Page.Begin | static/client.js:52-69 | a turn shows the user's line (none for an empty message) and the typing line, disables the input and records one post with the message, session and form |
| ClientPage.Page.Settle | static/client.js:71-108 | a reply removes the typing line and enables the input; a reply's error replaces all lines with it; otherwise the assistant's line is appended and a `<FINISHED>` reply finishes the conversation and hides the input; a failure replaces all lines and leaves the input disabled |
| ClientPage.Page.SendMessage | static/client.js:52-109 | exactly one post per send, the conversation finishing exactly when the reply finishes it; the lines are those of the settle cases |
| ClientPage.Page.Start | static/client.js:31-40 | the start button reveals the chat and posts an empty message |
| ClientPage.Page.ClickSend | static/client.js:42-49 | a click always empties the box; a finished conversation posts nothing and shows nothing new |
| ClientPage.Page.KeyDown | static/client.js:22-29 | Enter clicks an enabled send button; any other key, or a disabled button, changes nothing |
| SearchWidget.SourceFor | sigmund/templates/search-widget.js:118 | the forum checkbox selects `public-with-forum` exactly when checked, else `public-without-forum` |
| SearchWidget.EndpointOf | sigmund/templates/search-widget.js:162-164 | the endpoint is the attribute when it is set and non-empty, else `/public/search`; never empty |
| SearchWidget.Widget.constructor | sigmund/templates/search-widget.js:2-86 | page 0, no results, no requests; controls, spinner and More hidden |
| SearchWidget.Widget.Focus | sigmund/templates/search-widget.js:84 | focus shows the controls and nothing else changes |
| SearchWidget.Widget.HandleOutsideClick | sigmund/templates/search-widget.js:89-93 | a click outside hides the controls, one inside keeps them |
| SearchWidget.Widget.PerformSearch | sigmund/templates/search-widget.js:113-137 | a request is made exactly when the query is non-empty, for the query, the chosen source and the current page, and the widget enters the searching state; an empty query changes nothing |
| SearchWidget.Widget.Settle | sigmund/templates/search-widget.js:138-159 | non-empty results are appended and show More; empty ones replace the results with "No more results." and hide More; a failure shows the error text; on every path the searching state ends |
| SearchWidget.Widget.PerformNewSearch | sigmund/templates/search-widget.js:107-111 | a new search resets to page 0 with the results cleared, then searches |
| SearchWidget.Widget.HandleSearch | sigmund/templates/search-widget.js:96-100 | only Enter starts a new search, and any other key changes nothing |
| SearchWidget.Widget.HandleMore | sigmund/templates/search-widget.js:102-105 | More moves to the next page even for an empty query, keeps the results and asks for that page |
| Health.Monitor.constructor | sigmund/templates/health.js:58 | one check interval is armed and no modal exists yet |
| Health.Monitor.ShowConnectionLostModal | sigmund/templates/health.js:1-24 | the modal is shown, and it is created only the first time |
| Health.Monitor.StopHealthCheck | sigmund/templates/health.js:50-55 | no interval remains armed or held, and the modal is untouched |
| Health.Monitor.CheckHealth | sigmund/templates/health.js:26-48 | while streaming no request is made; a successful check changes nothing else; a response that is not ok, or a thrown request, shows the modal and stops the checks |
| Listener.Relay.constructor | sigmund/templates/listener.js:68 | one socket, connecting, nothing sent, no retry armed |
| Listener.Relay.Tick | sigmund/templates/listener.js:49-53 | each tick of the retry interval makes one more socket, connecting |
| Listener.Relay.OnOpen | sigmund/templates/listener.js:9-15 | opening only clears the retry interval; nothing is sent |
| Listener.Relay.OnClose | sigmund/templates/listener.js:35-38 | closing arms one retry interval, unless one is armed already |
| Listener.Relay.OnError | sigmund/templates/listener.js:40-43 | an error closes the socket unless it is closed already |
| Listener.Relay.Send | sigmund/templates/listener.js:56-65 | an open socket takes one envelope with the command `send_ai_message`; a connecting one throws; a closing or closed one drops it |
| Listener.Relay.OnMessage | sigmund/templates/listener.js:17-33 | a `send_user_message` command fills the box and the workspace and sends the message; anything else changes nothing |
| HeymansPage.BodyMark | heymans/templates/main.js:140-144 | the body is marked `body-finished` exactly when the reply contains `<FINISHED>`, `body-reported` exactly when it contains `<REPORTED>` and not `<FINISHED>`, and a marked reply always hides the input |
| HeymansPage.TruthyUrlsCount | heymans/templates/main.js:165-175 | one link per source with a non-empty URL: nothing is de-duplicated |
| HeymansPage.LinksMeaning | heymans/templates/main.js:158-178 | the sources div is left out exactly when no source has a non-empty URL; otherwise it links exactly those URLs, one per source, so a shared URL appears twice |
| HeymansPage.Page.constructor | heymans/templates/main.js:1-35 | at load the counter is updated once, the input is clipped to the maximum length, nothing is shown in the response area and nothing is posted |
| HeymansPage.Page.Input | heymans/templates/main.js:26-40 | typing clips the text, updates the counter and disables send below three characters |
| HeymansPage.Page.Begin | heymans/templates/main.js:71-111 | a turn hides the examples for a non-empty message and always the greeting, blanks the counter, shows the user's line (none when empty), starts a fresh indicator, disables the input and posts the message and session once |
| HeymansPage.Page.Settle | heymans/templates/main.js:112-183 | on every path the indicator's timer is cleared, the indicator removed and the input enabled; a failed post replaces the conversation with the error line and then throws reading `data.error`; a reply's error replaces it too; any other reply appends its box, hides the input on a closing marker, marks the body, and then throws at `window.scrollT` |
| HeymansPage.Page.SendMessage | heymans/templates/main.js:71-184 | one post per send, tried up to three times; the lines, the hidden input and the body marks are those of the settle cases for what the post settles to |
| HeymansPage.Page.ClickSend | heymans/templates/main.js:52-57 | a click empties the box and posts its former text |
| HeymansPage.Page.KeyDown | heymans/templates/main.js:43-50 | Enter without Shift clicks an enabled send button; any other key changes nothing |

## Left out

- Language models, embeddings, FAISS, the database, the markdown renderer, `json`, `fetch`, EventSource, WebSocket and the DOM are not modelled. Their results are parameters, and the model states what the code does with each possible result.
- Clocks, UUIDs, `Math.random` session ids and `generateUUID` are parameters.
- Concurrency is not modelled. This covers `predict_multiple` (asyncio), the interleaving of async browser callbacks (each handler runs to completion, one at a time), and timers (each tick is a method call).
- Unicode is approximated.
  - `\d`, `str.isdigit`, `str.isalpha`, `str.lower` and `toLowerCase` are taken on ASCII only.
  - `IGNORECASE` folds ASCII letters only; Python also folds U+017F, U+212A and U+0131.
  - JavaScript string lengths count characters, not UTF-16 code units.
- `textwrap.dedent` is modelled on its pre-3.13 algorithm, where lines of only whitespace become empty.
- Logging, `print` and `logger` calls are left out; they have no effect on results.
- `convert_message` is modelled as written. It raises `ValueError` for anything but a `str` or a `dict`, so a list of LangChain message objects is rejected.
- The FAISS membership checks `doc.page_content not in self._sigmund.documentation` and `not in docs` compare a string with documents, so they always hold. They are modelled as checks that admit every hit.
- `start is not span[0]` in `heymans/tools/base_tool.py` is an identity test. CPython caches small integers up to 256, so the model uses that constant; another interpreter could differ.
- The `try`/`except` around `process_ai_message` never catches anything the model can raise, so it has no modelled effect.
- `Messages.save` and the database sessions are parameters; persistence itself is not modelled.
- The heymans base model's `predict` is a foreign call and is a parameter.
- Browser-side details are left out:
  - image attachments shown in the conversation (`showImageAttachments`);
  - the favicon, scrolling, `scrollIntoViewIfNeeded` and `innerText` layout;
  - the "Load workspace" link's handler and the markup of the health modal;
  - the course and chapter dropdowns of `static/client.js`.
- loadMessageWorkspace (`sigmund/templates/workspace.js:62-67`) is not modelled: it reads the DOM's `innerText`, and its only effect is `SetWorkspace`.
- In `sigmund/templates/main.js`, a missing `workspace_content` field is `undefined` and passes the `!== null` test. The model has only present and `null` values, so it does not represent a missing field.
- Only the current event source delivers events. An earlier source that has been closed is not modelled.
- `listener.js` sends three-argument envelopes, while `main.js` calls `socketSendMessage` with four arguments when both scripts are loaded. The model keeps each script's own function.
- The JSON text on the WebSocket is not modelled; envelopes are datatypes.
- `JSON.parse(metadata.sources)` failing in heymans' page is not modelled; the sources enter parsed.
- In `static/client.js` a reply without `response` raises a `TypeError` at `endsWith`. The model treats `response` as always present.
- The search widget reads a reply without a `results` field as `Failed`.
- The heymans page's misspelt `window.scrollT` is modelled only as the throw it causes (`rejected`), after every change has been made.
- The public search `query` field is not modelled; the search results enter as a parameter.
- Attachments.Named treats `file.name = …` on a pasted image as taking effect, although `File.name` is read-only in browsers.
- Sigmund.Sigmund.SendUserMessage: the feedback recursion is bounded by a `fuel` parameter, and rounds beyond it are not modelled.
- Heymans.Heymans.SendUserMessage: the tool-feedback recursion is bounded by a `fuel` parameter, and rounds beyond it are not modelled.
- ChatApi.HeymansReplies: the heymans stream route calls `send_user_message(message, message_id)`, which raises (see Findings). Even the one-argument call would fail there: it returns one `(reply, None)` tuple, which `for reply, metadata in …` iterates element by element, and unpacking the reply string or `None` raises. The model's successful stream iterates `[heymans.send_user_message(message)]`, the one pair, instead.
- ChatApi.HeymansStreamCloses: states the stream that iterates the one `(reply, None)` pair, not the route as written, which raises before its first event.
- ReplyPipeline.ProcessAiMessage: uses the corrected code-fence dedent, which shifts a line only when it starts with the fence's indentation. As written, `line_indent < indent` compares strings (see Findings).
- AiMessage.ProcessAiMessage: uses the same corrected code-fence dedent as `ReplyPipeline.ProcessAiMessage`.
- SigmundMessages.Messages.Append: condenses with the corrected history line, which writes the assistant's entries as "You said". As written, the line tests for a 'system' role and writes them "User said" (see Findings).
- SigmundMessages.Messages.Condense: the summary is the prediction for the text built with the corrected history line, not the line as written.
- SigmundMessages.CondenseKeepsLatest: the summary it states is the prediction for the text built with the corrected history line.
- HeymansMessages.CondenseText: uses the corrected history line. As written, `heymans/messages.py:72` tests for a 'system' role as sigmund's does (see Findings).
- HeymansMessages.Messages.Append: condenses with the corrected `CondenseText`.
- HeymansMessages.Messages.Condense: the summary is the prediction for the corrected `CondenseText`.
- HeymansMessages.CondenseKeepsLatest: the summary it states is the prediction for the corrected `CondenseText`.
- HeymansMessages.Messages.constructor: builds the conversation as if `heymans/messages.py` could be imported and constructed. As written, `from .model import Model` (line 3) resolves to the `heymans/model` package, which defines no `Model`, so the import raises `ImportError`. The constructor's call `Messages(self, persistent)` raises `TypeError` too (see Findings).
- Heymans.Heymans.constructor: succeeds in the model. As written it cannot: importing `heymans/messages.py` raises `ImportError`, `Messages(self, persistent)` at `heymans/heymans.py:28` raises `TypeError`, and the heymans base model it builds is not part of this model.
- Heymans.Heymans.SendUserMessage: appends through the corrected `HeymansMessages.Messages.Append` and runs the tools through the corrected `HeymansBaseTool.Run`.
- Sigmund.Sigmund.SendUserMessage: passes the client's message id as `message_id`. As written, `sigmund/sigmund.py:99` passes it positionally as the workspace content (see Findings).
- Sigmund.Sigmund.constructor: succeeds in the model. As written, every provider model it builds raises `TypeError`, because the provider constructors do not pass `model` on to `BaseModel.__init__` (see Findings).
- OpenAIModel.OpenAIModel.constructor: succeeds in the model. As written, `super().__init__(sigmund, **kwargs)` leaves `model` unbound and raises `TypeError` (see Findings).
- AnthropicModel.AnthropicModel.constructor: succeeds in the model; as written it raises `TypeError` for the same reason as the OpenAI constructor.
- MistralModel.MistralModel.constructor: succeeds in the model; as written `BaseModel.__init__(self, sigmund, **kwargs)` raises `TypeError` for the same reason.
- SigmundModelFactory.Model: states which class and id a name selects. As written, building any of the provider models then raises `TypeError`. The dummy model is not part of this model.
- PublicSearch.PublicSearch.Search: the chatbot and its public model are given as working objects. As written, `Sigmund(user_id='dummy', …)` at `sigmund/routes/public.py:18` builds the provider models, which raises `TypeError` before the search (see Findings).
- StaticPredict.Static.Predict: the model is given as a working object. As written, `sigmund_model(None, model)` at `sigmund/static.py:36` raises `TypeError` on the first call (see Findings).
- HeymansBaseTool.Run: the placeholder for a reply that is only tool JSON holds `…`. As written it holds the mojibake `â€¦` (see Findings).
- ClientPage.Page.Begin: the typing line holds `…`. As written it holds the mojibake `â€¦` (see Findings).
- ClientPage.Page.SendMessage: shows the corrected typing line of `ClientPage.Page.Begin`.
- AnthropicModel.AnthropicModel.RewriteToolMessages: removes the merged user message itself. As written, `messages.remove(next_message)` removes the first message equal to it (see Findings).
- AnthropicModel.RewriteRoles: states the roles after the corrected removal of the merged message.
- AnthropicModel.AnthropicModel.Predict: does not apply `utils.prepare_messages` or `convert_message`. The list enters as the rewrite loop receives it, and the rewrite is the corrected one. As written, `prepare_messages` raises `AttributeError` on a list of dictionaries (it reads `.content`) and `IndexError` on a one-item list. A list of LangChain messages then meets `convert_message`'s `ValueError`.
- MistralModel.MistralModel.Predict: does not apply `utils.prepare_messages` or `convert_message`. The list enters as the linking step receives it, and the same failures as in `AnthropicModel.AnthropicModel.Predict` are not modelled.
- Strings.WordBoundary: `\b` is taken between ASCII word characters only. Python's `\b` (used at `sigmund/utils.py:180` and `sigmund/process_sigmund_message.py:284`) also counts Unicode letters and digits as word characters.
- Strings.IsWordChar: `\w` is restricted to ASCII letters, digits and `_`.
- PrepareMessages.PrepareMessages: requires the message objects of the list to be distinct objects (`Distinct(list.items)`). A list that holds the same object twice, where updating one entry updates the other, is not modelled. The same requirement holds for `PrepareMessages.MergeRuns`, `PrepareMessages.DropFirstAi`, `PrepareMessages.PrepareList` and `PrepareMessages.MergePhase`.
- SocketClient.Connection.constructor: the chat page always makes the companion socket. `sigmund/templates/main.js:48-50` does so only when `connectWebSocket` is defined, that is when a socket script is loaded.
- SocketClient.Connection.Tick: events from a socket that a retry has replaced are not modelled. Only the current socket delivers events.

## Findings

| source | as written | input that shows it | evidently intended | confidence | as-written member | corrected member |
|---|---|---|---|---|---|---|
| sigmund/process_sigmund_message.py:247-249 | `line_indent < indent` compares strings, then `bline[len(indent):]` cuts that many characters | a fence indented by two tabs around a line indented by one space: `" x"` passes the test and loses its text | a line is shifted only when it starts with the fence's indentation | not executed | CodeFences.StringLessDropsText | CodeFences.DedentFromIndentTrimmed |
| sigmund/model/_anthropic_model.py:74 | `messages.remove(next_message)` removes the first message equal to the merged one | the list `[user u, assistant, tool, user u]` as the rewrite loop receives it: the opening `u` is removed and the merged `u` remains | the merged message right after the tool message is removed | not executed | AnthropicModel.RemoveDropsEarlierDuplicate | AnthropicModel.AnthropicModel.RewriteToolMessages |
| sigmund/messages.py:161-164 | the condense history says "You said: " only for the role `system` | any assistant message in the condensed part is rendered "User said: " | the assistant's messages read "You said: " | not executed | SigmundMessages.AssistantSaidByUser | SigmundMessages.HistoryLineByRole |
| sigmund/sigmund.py:99 | `self.messages.append('user', message, message_id)` passes the id positionally | any message id: it is stored as workspace content, and the entry gets a fresh id | the id is passed as `message_id` | not executed | Sigmund.UserMessageIdLost | Sigmund.UserMessageIdKept |
| heymans/messages.py:72 | the condense text says "You said: " only for the role `system` | any assistant entry in the condensed part is written "User said: " | the assistant's entries read "You said: " | not executed | HeymansMessages.CondenseAsWrittenAllUser | HeymansMessages.CondenseTextByRole |
| sigmund/model/_openai_model.py:14 | `super().__init__(sigmund, **kwargs)` does not pass `model` on, while `BaseModel.__init__` requires it; `_anthropic_model.py:14` and `_mistral_model.py:17` do the same | any model name the factory sends to a provider: `TypeError` for the missing `model` | `super().__init__(sigmund, model, **kwargs)` | not executed | ModelBase.ProviderInitMissesModel | ModelBase.ProviderInitBinds |
| heymans/heymans.py:28 | `Messages(self, persistent)` passes two arguments to `Messages.__init__(self, heymans)` | any heymans chatbot: `TypeError` (three positional arguments given to two parameters) | `Messages(self)` | not executed | HeymansMessages.PersistentArgumentTooMany | HeymansMessages.HeymansArgumentBinds |
| heymans/tools/base_tool.py:77 | the placeholder holds `â€¦`, the UTF-8 bytes of an ellipsis read as cp1252 | a reply that is only tool JSON: the placeholder shows three stray characters | `…` | not executed | HeymansBaseTool.PlaceholderMojibake | HeymansBaseTool.FinishParts |
| heymans/routes/api.py:45 | `heymans.send_user_message(message, message_id)` passes two arguments to a method that takes one | any stream request: a `TypeError` before the first event, and `close` is never sent | iterating `[heymans.send_user_message(message)]`: one `(reply, None)` pair, its event, then `close` | not executed | ChatApi.HeymansStreamRaises | ChatApi.HeymansStreamCloses |
| static/client.js:64 | the typing line holds `â€¦` | any turn: the typing line shows three stray characters | `…` | not executed | ClientPage.TypingMojibake | ClientPage.Page.Begin |
