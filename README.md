# rotext block pipeline and widgets, modelled in Dafny

This project models the core of rotext, a lightweight markup language, in
Dafny.

On the Rust side it covers the block phase:

- the global-event-stream mapper, which cuts the global parser's events into
  character tokens, line feeds, blank lines and text;
- the resumable content sub-parser;
- the paragraph and code-block sub-parsers;
- the root block parser that dispatches on the first characters of a line
  and pauses and resumes sub-parsers at line feeds;
- the two stacks of `utils/stack.rs`;
- the event vocabularies of `events.rs` and `block/events.rs`;
- the HTML renderer of `lib.rs` with its two escapers;
- the `id:start-end;…` block-id-to-lines map of the wasm bindings.

On the TypeScript side it covers:

- the reference-link address parser `parseAddress` and the listener contract
  of the reference-link widget;
- the widget display-mode state machine (`closed`, `floating`, `pinned`, with
  collapse, auto-open, hover-leave and touch timers);
- the popper placement and the change-only size signal of the widget;
- the playground preview: its lookup list built from `data-sourcemap`
  attributes, the origin-tagged scroll synchronisation with the editor, and
  the active-lines highlight.

Where the source mutates an object, the model is a class whose methods are
proved to end in the state a pure specification function gives. The
properties are lemmas over those functions: round trips, invariants the
handlers keep, event orders and counter balances. Cases from the source's
own test tables are lemmas too, for the test cases the model can express.

Most modules model one source file. The exceptions are:

- `common.dfy` (ranges, bytes, `Option`) and `strings.dfy` (decimal
  numerals, a JavaScript-like `split`) are shared helpers;
- `sub_parsers.dfy` holds what the content, paragraph and code-block
  sub-parsers and the root parser exchange: the events they yield and the
  result of one `next` call;
- `context.dfy` states the block parser's context (input, mapped tokens,
  read position) abstractly, as described under "Left out".

## Model

| member | source | states |
|---|---|---|
| Stack.VecStack.constructor | rust/rotext/src/utils/stack.rs:17-19 | a new vector stack is empty |
| Stack.VecStack.TryPush | rust/rotext/src/utils/stack.rs:21-24 | pushing always succeeds and appends the item on top |
| Stack.VecStack.Pop | rust/rotext/src/utils/stack.rs:26-28 | an empty stack gives `None`; otherwise the last pushed item is removed and returned, and the rest is unchanged |
| Stack.VecStack.AsSlice | rust/rotext/src/utils/stack.rs:30-32 | the slice lists exactly the stored items, bottom first |
| Stack.ArrayStack.constructor | rust/rotext/src/utils/stack.rs:40-48 | a new stack of capacity `n` is empty |
| Stack.ArrayStack.TryPush | rust/rotext/src/utils/stack.rs:50-58 | a full stack reports `OutOfStackSpace` and is unchanged; otherwise the item is appended and the length grows by one |
| Stack.ArrayStack.Pop | rust/rotext/src/utils/stack.rs:60-70 | an empty stack gives `None`; otherwise the top item is returned, and the remaining slice plus that item is the old slice |
| Stack.ArrayStack.AsSlice | rust/rotext/src/utils/stack.rs:72-74 | the slice is the first `len` slots, and `len` never exceeds the capacity |
| Stack.ArrayStackScenario | rust/rotext/src/utils/stack.rs:81-91 | the `array_stack_works` test: with capacity 2, pop gives none, two pushes succeed, a third fails, pops give 2 then 1, and a push succeeds again |
| BlockEvents.Content | rust/rotext/src/block/events.rs:35-49 | content is present exactly for `Undetermined` and `VerbatimEscaping`; it is the text of their range and has the range's length |
| BlockEvents.StructuralEventsHaveNoContent | rust/rotext/src/block/events.rs:38-45 | every event without a range is one of the seven structural events and has no content |
| BlockEvents.ContentExample | rust/rotext/src/block/events.rs:35-49 | concrete contents of `Undetermined` and `VerbatimEscaping` ranges, and none for `Exit` |
| Events.Discriminant | rust/rotext/src/events.rs:9-39 | every event type is represented by a byte |
| Events.FromU8RoundTrip | rust/rotext/src/events.rs:42-46 | reading an event type's discriminant back gives that type |
| Events.DiscriminantsDistinct | rust/rotext/src/events.rs:9-39 | no two event types share a discriminant |
| Events.DiscriminantRoundTrip | rust/rotext/src/events.rs:42-46 | every byte that reads back as a type is that type's discriminant |
| Events.HeadingDiscriminant | rust/rotext/src/events.rs:23-28 | `EnterHeadingN` is represented by the byte N |
| Events.Content | rust/rotext/src/events.rs:192-219 | when content is present, the event carries a range and the content is that range's text |
| Events.ContentIffTextual | rust/rotext/src/events.rs:192-219 | content is present exactly for the event types whose discriminant lies above 200, `NewLine` excepted |
| Events.OpensIffParagraphHeadingOrCode | rust/rotext/src/events.rs:256-268 | an event opens the inline phase exactly when it is a paragraph or heading (discriminants 1 to 7) or the code part of a code block |
| Events.OpensAndClosesOnlyCodePart | rust/rotext/src/events.rs:256-275 | only `IndicateCodeBlockCode` both opens and closes an inline phase |
| Events.PhaseBoundariesHaveNoContent | rust/rotext/src/events.rs:192-275 | events that open or close an inline phase carry no content |
| Events.LineFlag | rust/rotext/src/events.rs:240 | the line flag starts with `>ln:` and has a number after it |
| Events.AssertionFlags | rust/rotext/src/events.rs:222-252 | flags are never an empty set; "F" is present exactly for a forcibly closed verbatim escaping; the result is present exactly when "F" or the line-number flag applies; the line-number flag is present whenever the feature is on; the set holds nothing but these two flags, and only "F" when the feature is off |
| Render.EscapeChar | rust/rotext/src/lib.rs:112-130 | an escaped character never contains the escaper's special character, and ordinary characters are kept as they are |
| Render.EscapeAppend | rust/rotext/src/lib.rs:112-130 | escaping works character by character: escaping a concatenation concatenates the escapes |
| Render.WriteEscaped | rust/rotext/src/lib.rs:112-130 | the loop appends exactly the escape of the input to the destination |
| Render.EscapeHasNoSpecial | rust/rotext/src/lib.rs:112-130 | escaped text never holds `<` (text escaper) or `"` (attribute escaper) |
| Render.EscapeIdentity | rust/rotext/src/lib.rs:112-130 | text without `&` and without the special character is left unchanged |
| Render.UnescapeEscape | rust/rotext/src/lib.rs:112-130 | decoding the entities gives back the original text, so escaping loses nothing |
| Render.RenderToHtml | rust/rotext/src/lib.rs:43-110 | the rendering loop builds exactly the HTML that the event-by-event specification gives |
| Render.GoFits | rust/rotext/src/lib.rs:50-107 | rendering succeeds without a panic exactly when every `Exit` has an open container, no `Separator` stands outside a code block's info string, and every info string holds only text and ends in a `Separator` |
| Render.InfoFitsIff | rust/rotext/src/lib.rs:91-105 | inside a code block's info string, rendering succeeds exactly when text runs up to a `Separator` and the rest fits |
| Render.GoAppend | rust/rotext/src/lib.rs:50-107 | rendering a concatenation continues from the state the first part left |
| Render.InfoAppend | rust/rotext/src/lib.rs:91-105 | rendering a concatenation that starts in an info string continues from the state the first part left |
| Render.GoFrame | rust/rotext/src/lib.rs:50-107 | output already written and closing tags already stacked do not affect how the rest renders |
| Render.InfoFrame | rust/rotext/src/lib.rs:91-105 | the same independence inside an info string |
| Render.ContainerNesting | rust/rotext/src/lib.rs:60-90 | a container around a balanced body renders as its opening tag, the body and its own closing tag |
| Render.InfoTexts | rust/rotext/src/lib.rs:94-103 | the info string's text events are written attribute-escaped, one after another |
| Render.CodeBlockNesting | rust/rotext/src/lib.rs:91-105 | a code block renders as `<x-code-block info-string="…">`, its code, and `</x-code-block>` |
| BlockIdMap.EntryOf | rust/rotext_wasm_bindings/src/data_exchange/block_id_to_lines_map.rs:5-23 | a thematic break gives a one-line entry, an exited block its line range, and every other event nothing |
| BlockIdMap.WriteIdAndLineRange | rust/rotext_wasm_bindings/src/data_exchange/block_id_to_lines_map.rs:35-41 | appends one `id:start-end` record to the target |
| BlockIdMap.CreateBlockIdToLinesMap | rust/rotext_wasm_bindings/src/data_exchange/block_id_to_lines_map.rs:1-33 | the output is the records of the block events, in event order, joined by `;` with no trailing separator |
| BlockIdMap.TerminatedIsJoin | rust/rotext_wasm_bindings/src/data_exchange/block_id_to_lines_map.rs:25-31 | dropping the last `;` of the terminated records gives the joined records |
| BlockIdMap.EntriesAppend | rust/rotext_wasm_bindings/src/data_exchange/block_id_to_lines_map.rs:4-26 | the entries of concatenated event lists are the concatenated entries |
| BlockIdMap.EmptyIffNoBlocks | rust/rotext_wasm_bindings/src/data_exchange/block_id_to_lines_map.rs:1-33 | the map is empty exactly when no event is a thematic break or an exited block |
| BlockIdMap.ParseRecordOfRecord | rust/rotext_wasm_bindings/src/data_exchange/block_id_to_lines_map.rs:35-46 | one record reads back as the entry it was written from |
| BlockIdMap.ParseRecordsOfRecords | rust/rotext_wasm_bindings/src/data_exchange/block_id_to_lines_map.rs:1-46 | a list of records reads back as the list of entries |
| BlockIdMap.MapRoundTrip | rust/rotext_wasm_bindings/src/data_exchange/block_id_to_lines_map.rs:1-46 | splitting the map on `;`, `:` and `-` recovers every entry, in order |
| Strings.SplitJoin | website/src/pages/Playground/preview-parts/Preview/mod.tsx:77 | splitting pieces joined by a separator that none of them holds gives the pieces back |
| Strings.DecimalRoundTrip | rust/rotext_wasm_bindings/src/data_exchange/block_id_to_lines_map.rs:43-46 | a written decimal numeral reads back as the number it was written from |
| GlobalMapper.TrimVerbatim | rust/rotext/src/block/global_mapper.rs:124-133 | the trimmed range lies inside the original; ranges shorter than 2 are kept; otherwise exactly one leading and one trailing space are removed when present |
| GlobalMapper.Step | rust/rotext/src/block/global_mapper.rs:53-146 | one pass of the loop keeps the mapper state valid, and a pass that goes round again strictly decreases the progress measure |
| GlobalMapper.NextSpec | rust/rotext/src/block/global_mapper.rs:48-147 | a deferred token is returned first; otherwise the loop runs to its return, and the state stays valid |
| GlobalMapper.GlobalEventStreamMapper.constructor | rust/rotext/src/block/global_mapper.rs:38-46 | a new mapper holds no deferred token and no chunk, and counts zero spaces at the line beginning |
| GlobalMapper.GlobalEventStreamMapper.Next | rust/rotext/src/block/global_mapper.rs:48-147 | `next` returns the token and leaves the state that `NextSpec` gives |
| GlobalMapper.GlobalEventStreamMapper.Pass | rust/rotext/src/block/global_mapper.rs:54-145 | one loop pass either continues or returns, exactly as `Step` says |
| GlobalMapper.LoopProgress | rust/rotext/src/block/global_mapper.rs:53-146 | the loop returns a token only after strict progress, and returns `None` only when the mapper is exhausted |
| GlobalMapper.NextProgress | rust/rotext/src/block/global_mapper.rs:48-147 | every yielded token is progress; `None` means exhausted; an exhausted mapper keeps returning `None` unchanged |
| GlobalMapper.ChunkStartsWithCharAt | rust/rotext/src/block/global_mapper.rs:93-96 | the first byte of a fresh chunk is reported as `CharAt` of its index |
| GlobalMapper.LaterByteIsNextChar | rust/rotext/src/block/global_mapper.rs:97-100 | a later byte of the same line is reported as `NextChar` |
| GlobalMapper.LineFeedStartsLine | rust/rotext/src/block/global_mapper.rs:85-96 | a line feed is reported as `LineFeed`, and the byte after it as `CharAt` |
| GlobalMapper.BlankLineCountsSpaces | rust/rotext/src/block/global_mapper.rs:66-75 | a line of spaces ending in a line feed is one `BlankLine` that counts all of its spaces |
| GlobalMapper.LeadingSpacesReported | rust/rotext/src/block/global_mapper.rs:76-82 | leading spaces before other content are reported once as `SpacesAtLineBeginning`, and not at all when there are none |
| GlobalMapper.VerbatimBecomesText | rust/rotext/src/block/global_mapper.rs:120-143 | a verbatim escaping becomes `Text` of its trimmed range, deferred behind pending leading spaces |
| GlobalMapper.CommentYieldsNothing | rust/rotext/src/block/global_mapper.rs:144 | a comment yields no token and the mapper goes on with the next event |
| GlobalMapper.EndOfStream | rust/rotext/src/block/global_mapper.rs:103-110 | at the end of the stream, pending leading spaces are reported once, then nothing more |
| GlobalMapper.EmptyInputYieldsNothing | rust/rotext/src/block/global_mapper.rs:167 | test case "": no tokens |
| GlobalMapper.SpacesOnlyExample | rust/rotext/src/block/global_mapper.rs:168-169 | test case "  " |
| GlobalMapper.OneCharExample | rust/rotext/src/block/global_mapper.rs:170-171 | test case "a" |
| GlobalMapper.TwoCharsExample | rust/rotext/src/block/global_mapper.rs:172-173 | test case "ab" |
| GlobalMapper.LineFeedExample | rust/rotext/src/block/global_mapper.rs:175-176 | test case "a\nbc" |
| GlobalMapper.BlankLineExample | rust/rotext/src/block/global_mapper.rs:178-179 | test case "\n" |
| GlobalMapper.CommentOnBlankLineExample | rust/rotext/src/block/global_mapper.rs:180-181 | test case "<%…%>\n" |
| GlobalMapper.TwoBlankLinesExample | rust/rotext/src/block/global_mapper.rs:184-185 | test case "\n\n" |
| GlobalMapper.TextThenLineFeedExample | rust/rotext/src/block/global_mapper.rs:188-189 | test case "a\n" |
| GlobalMapper.TextThenBlankLineExample | rust/rotext/src/block/global_mapper.rs:190-191 | test case "a\n\n" |
| GlobalMapper.SpacesBlankLineExample | rust/rotext/src/block/global_mapper.rs:195-196 | test case "  \n" |
| GlobalMapper.SpacesBeforeCommentExample | rust/rotext/src/block/global_mapper.rs:197-198 | test case "  <%…%>\n" |
| GlobalMapper.SpacesBeforeVerbatimExample | rust/rotext/src/block/global_mapper.rs:199-201 | test case "  <` `>\n" |
| GlobalMapper.VerbatimExample | rust/rotext/src/block/global_mapper.rs:203-204 | test case "<`a`>" |
| GlobalMapper.VerbatimTrimExample | rust/rotext/src/block/global_mapper.rs:205-206 | test case "<` a `>" |
| GlobalMapper.VerbatimWideTrimExample | rust/rotext/src/block/global_mapper.rs:207-208 | test case "<`  a  `>" |
| GlobalMapper.VerbatimOneSpaceExample | rust/rotext/src/block/global_mapper.rs:209-210 | test case "<` `>" |
| GlobalMapper.VerbatimTwoSpacesExample | rust/rotext/src/block/global_mapper.rs:211-212 | test case "<`  `>" |
| GlobalMapper.VerbatimThreeSpacesExample | rust/rotext/src/block/global_mapper.rs:213-214 | test case "<`   `>" |
| GlobalMapper.VerbatimBetweenTextExample | rust/rotext/src/block/global_mapper.rs:215-217 | test case "a<`` ` ``>bc" |
| GlobalMapper.UnclosedVerbatimExample | rust/rotext/src/block/global_mapper.rs:218-219 | test case "a<` b" |
| GlobalMapper.CommentExample | rust/rotext/src/block/global_mapper.rs:221-222 | test case "ab<% … %>c" |
| BlockContext.Context.constructor | rust/rotext/src/block/mod.rs:36-40 | the context reads the token stream of the input from its start |
| BlockContext.Context.Peek1 | rust/rotext/src/block/sub_parsers/content.rs:131 | peeking gives the token at the read position, or none at the end |
| BlockContext.Context.ConsumePeeked | rust/rotext/src/block/sub_parsers/content.rs:139-140 | consuming the peeked token advances the read position by one |
| BlockContext.Context.PeekNextChar | rust/rotext/src/block/sub_parsers/content.rs:189 | the byte of the next token when it is a character token |
| BlockContext.Context.MustTake | rust/rotext/src/block/mod.rs:186 | takes exactly `n` tokens the caller has already seen |
| BlockContext.Context.DropWhileChar | rust/rotext/src/block/sub_parsers/content.rs:213-216 | drops the run of the character, up to the maximum, and reports its length |
| BlockContext.Context.TakeIfSpace | rust/rotext/src/block/mod.rs:174-176 | the next token is taken exactly when it is a space or a tab |
| BlockContext.DropCountIsMaximalRun | rust/rotext/src/block/sub_parsers/content.rs:271 | every dropped token is the character, and the drop stops at the maximum or at the first token that is not that character |
| BlockContext.DropCountOfRun | rust/rotext/src/block/mod.rs:205 | a run of exactly `n` of the character drops `n` tokens |
| BlockContext.CursorOnConsumedChar | rust/rotext/src/block/sub_parsers/content.rs:139-140 | after a character token is consumed, the cursor points at that character |
| BlockContext.LineStartsWithCharAt | rust/rotext/src/block/sub_parsers/content.rs:282 | after a line feed the next token is never `NextChar`, so that branch is unreachable |
| ContentParser.NewFields | rust/rotext/src/block/sub_parsers/content.rs:89-96 | a new parser starts at its first line, in the state its options give |
| ContentParser.MakeContentEvent | rust/rotext/src/block/sub_parsers/content.rs:313-318 | inline mode gives `Unparsed` and verbatim mode gives `Text`, both of the given range |
| ContentParser.ProcessInitial | rust/rotext/src/block/sub_parsers/content.rs:127-164 | the initial state consumes one token unless it is done, enters only the `Normal` state, and yields only content events |
| ContentParser.LineEndCondition | rust/rotext/src/block/sub_parsers/content.rs:184-190 | the line-end condition applies only when the next character is a space |
| ContentParser.ProcessNormal | rust/rotext/src/block/sub_parsers/content.rs:167-242 | the normal state never pauses, finishes or changes state; when it continues it has consumed input; it yields only content events |
| ContentParser.LineBeginningCondition | rust/rotext/src/block/sub_parsers/content.rs:255-259 | the line-beginning condition applies only to its own character |
| ContentParser.ProcessAfterLineFeed | rust/rotext/src/block/sub_parsers/content.rs:245-306 | after a line feed the parser never pauses; it continues in place only past a blank run; it changes state only back to `Initial` or, after consuming a run, to `Normal`; it yields only content events |
| ContentParser.Step | rust/rotext/src/block/sub_parsers/content.rs:105-122 | one loop iteration: a pause follows a consumed line feed, `Done` is at a line end, yields are content events, and progress is made |
| ContentParser.Loop | rust/rotext/src/block/sub_parsers/content.rs:104-123 | the loop runs to a break with the same guarantees |
| ContentParser.NextSpec | rust/rotext/src/block/sub_parsers/content.rs:98-124 | `next` starts from the stored step state and then resets it to `Initial`, and a parser that ends before a new line never pauses |
| ContentParser.Parser.constructor | rust/rotext/src/block/sub_parsers/content.rs:89-96 | the fields are those of the options |
| ContentParser.Parser.ProcessInInitialState | rust/rotext/src/block/sub_parsers/content.rs:127-164 | returns and consumes what `ProcessInitial` gives |
| ContentParser.Parser.ProcessInNormalState | rust/rotext/src/block/sub_parsers/content.rs:167-242 | returns, consumes and grows the range as `ProcessNormal` gives |
| ContentParser.Parser.ProcessInIsAfterLineFeedState | rust/rotext/src/block/sub_parsers/content.rs:245-306 | returns and consumes what `ProcessAfterLineFeed` gives |
| ContentParser.Parser.Next | rust/rotext/src/block/sub_parsers/content.rs:98-124 | `next` returns, consumes and updates the fields as `NextSpec` gives |
| ContentParser.Parser.Pass | rust/rotext/src/block/sub_parsers/content.rs:105-122 | one pass of the loop is `Step` |
| ContentParser.Parser.ResumeFromPauseForNewLineAndContinue | rust/rotext/src/block/sub_parsers/content.rs:308-310 | the next call starts after the line feed |
| ContentParser.InitialStateAtEndOrText | rust/rotext/src/block/sub_parsers/content.rs:127-164 | in the initial state, exhausted input gives `Done`, and a `Text` token is yielded as it is |
| ContentParser.InitialStateAtLineFeed | rust/rotext/src/block/sub_parsers/content.rs:143-150 | a line feed in the initial state is consumed; it ends a parser that must end before a new line, and pauses any other parser |
| ContentParser.NeverPausesBeforeNewLine | rust/rotext/src/block/sub_parsers/content.rs:143-150 | a parser that must end before a new line never pauses, from any state |
| ContentParser.BlankTokenInEveryState | rust/rotext/src/block/sub_parsers/content.rs:151-157 | a blank run at a line start is consumed in every state: dropped in inline mode, yielded as text in verbatim mode |
| ContentParser.NormalRangeGrowsByOne | rust/rotext/src/block/sub_parsers/content.rs:183-195 | without a line-end condition, each `NextChar` grows the range by one, and the range is yielded whole when it ends |
| ContentParser.FirstCharOpensRange | rust/rotext/src/block/sub_parsers/content.rs:136-141 | a first character followed by `k` `NextChar`s is yielded as one content event of length `k + 1` |
| ContentParser.LineEndClosingSequence | rust/rotext/src/block/sub_parsers/content.rs:197-227 | a space and exactly the minimal count of closing characters before a line end yield the content before them, and those characters are consumed |
| ContentParser.AfterLineFeedRepetitiveCharacters | rust/rotext/src/block/sub_parsers/content.rs:254-280 | after a line feed, a long enough run of the closing character ends the parser, and a shorter run becomes the start of content |
| ContentParser.AfterLineFeedBlankLine | rust/rotext/src/block/sub_parsers/content.rs:283-287 | at a blank line, a parser that stops before blank lines consumes the line feed and ends; any other parser yields the pending line feed and leaves the new one for the next call |
| Paragraph.ContentOptions | rust/rotext/src/block/sub_parsers/paragraph.rs:41-53 | the content parser is inline and stops before a blank line; it starts in `Normal` with the content before it, if any |
| Paragraph.NextSpec | rust/rotext/src/block/sub_parsers/paragraph.rs:35-90 | `EnterParagraph` first; content events forwarded; a pause keeps the content parser; `Done` of the content becomes `Exit`; then `Done` |
| Paragraph.ResumeAndContinueSpec | rust/rotext/src/block/sub_parsers/paragraph.rs:98-105 | resuming hands the paused content parser back, set to start after the line feed |
| Paragraph.Parser.constructor | rust/rotext/src/block/sub_parsers/paragraph.rs:28-32 | a new paragraph parser is in the initial state with its content before |
| Paragraph.Parser.Next | rust/rotext/src/block/sub_parsers/paragraph.rs:35-90 | `next` returns, consumes and changes state as `NextSpec` gives |
| Paragraph.Parser.ResumeFromPauseForNewLineAndContinue | rust/rotext/src/block/sub_parsers/paragraph.rs:98-105 | the new state is `ResumeAndContinueSpec` of the paused one |
| Paragraph.Parser.ResumeFromPauseForNewLineAndExit | rust/rotext/src/block/sub_parsers/paragraph.rs:107-113 | a paused paragraph moves to `ToExit` |
| Paragraph.ParagraphEventOrder | rust/rotext/src/block/sub_parsers/paragraph.rs:40-90 | a paragraph run is `EnterParagraph`, content events, and exactly one closing `Exit` |
| Paragraph.ContentRunEndsWithExit | rust/rotext/src/block/sub_parsers/paragraph.rs:60-86 | from the content or `ToExit` state a run is content events then one `Exit` |
| Paragraph.SingleCharParagraphExample | rust/rotext/src/block/sub_parsers/paragraph.rs:35-90 | "a" is `EnterParagraph`, one range, `Exit` |
| Paragraph.LineFeedParagraphExample | rust/rotext/src/block/sub_parsers/paragraph.rs:35-90 | "a\nb" keeps the line feed inside the paragraph |
| Paragraph.BlankLineEndsParagraphExample | rust/rotext/src/block/sub_parsers/paragraph.rs:48-50 | "a\n\nb": a blank line ends the paragraph |
| CodeBlock.InfoStringOptions | rust/rotext/src/block/sub_parsers/code_block.rs:49-56 | the info string is verbatim and ends before the new line |
| CodeBlock.CodeOptions | rust/rotext/src/block/sub_parsers/code_block.rs:72-84 | the code is verbatim, starts at a line beginning, and ends at a run of at least the opening number of backticks at a line beginning |
| CodeBlock.NextSpec | rust/rotext/src/block/sub_parsers/code_block.rs:40-119 | `EnterCodeBlock`, the info string's events, `Separator`, the code's events, `Exit`, then `Done`; only the code pauses |
| CodeBlock.ResumeAndContinueSpec | rust/rotext/src/block/sub_parsers/code_block.rs:127-134 | resuming hands the paused code parser back, set to start after the line feed |
| CodeBlock.Parser.constructor | rust/rotext/src/block/sub_parsers/code_block.rs:31-37 | a new code-block parser is in the initial state with its backtick count |
| CodeBlock.Parser.Next | rust/rotext/src/block/sub_parsers/code_block.rs:40-119 | `next` returns, consumes and changes state as `NextSpec` gives |
| CodeBlock.Parser.ResumeFromPauseForNewLineAndContinue | rust/rotext/src/block/sub_parsers/code_block.rs:127-134 | the new state is `ResumeAndContinueSpec` of the paused one |
| CodeBlock.Parser.ResumeFromPauseForNewLineAndExit | rust/rotext/src/block/sub_parsers/code_block.rs:136-142 | a paused code block moves to `ToExit` |
| CodeBlock.ClosingFenceEndsBlock | rust/rotext/src/block/sub_parsers/code_block.rs:93-107 | a closing fence of at least the opening length at a line start yields `Exit` |
| CodeBlock.CodeBlockEventOrder | rust/rotext/src/block/sub_parsers/code_block.rs:48-108 | a code-block run is `EnterCodeBlock`, info-string content, one `Separator`, code content, and one `Exit` |
| CodeBlock.InfoStringRun | rust/rotext/src/block/sub_parsers/code_block.rs:63-91 | the info string yields content events up to the single `Separator` |
| CodeBlock.CodeRunEndsWithExit | rust/rotext/src/block/sub_parsers/code_block.rs:93-115 | the code yields content events and then exactly one `Exit` |
| BlockParser.SkipBlanks | rust/rotext/src/block/mod.rs:152-182 | skipping stops at the end, at a `Text` token, or at a character that is not a space, and skips only line feeds, blank runs and space characters |
| BlockParser.SkipBlanksStep | rust/rotext/src/block/mod.rs:168-180 | a skipped token leaves the rest of the skipping to the next token |
| BlockParser.Dispatch | rust/rotext/src/block/mod.rs:184-211 | the dispatch on three characters yields only a thematic break, enters only a heading or a fresh code block, and is never `Done` |
| BlockParser.DispatchEquals | rust/rotext/src/block/mod.rs:190-202 | `=` enters a heading of level 1 to 6 or a paragraph with the `=` run as content before |
| BlockParser.ParseRootSpec | rust/rotext/src/block/mod.rs:148-212 | a paused sub-parser is resumed (input left) or told to exit (no input left) before any token is read; `Done` exactly when only blanks remain |
| BlockParser.InRootStep | rust/rotext/src/block/mod.rs:90-116 | `process_in_root_state` keeps the parser state valid |
| BlockParser.InSubParserStep | rust/rotext/src/block/mod.rs:119-138 | `process_in_sub_parser_state` forwards yields, returns to the root on a pause (keeping the sub-parser) or on `Done` |
| BlockParser.Step | rust/rotext/src/block/mod.rs:54-77 | one loop iteration keeps the state valid, and goes round again only with progress |
| BlockParser.NextSpec | rust/rotext/src/block/mod.rs:53-78 | `next` runs the loop to its outcome and keeps the state valid |
| BlockParser.NextSpecUnfolds | rust/rotext/src/block/mod.rs:53-78 | the loop goes on after a continue and stops at a return; in clean-up it returns the end at once |
| BlockParser.Parser.constructor | rust/rotext/src/block/mod.rs:35-51 | a new parser is at the root with nothing paused, not cleaning up |
| BlockParser.Parser.Next | rust/rotext/src/block/mod.rs:53-78 | `next` returns, consumes and changes state as `NextSpec` gives |
| BlockParser.Parser.Iterate | rust/rotext/src/block/mod.rs:61-76 | one turn of the loop either returns `NextSpec`'s outcome or leaves a state with the same outcome ahead, after progress |
| BlockParser.Parser.IterateInRoot | rust/rotext/src/block/mod.rs:63-67 | the root turn is `InRootStep` |
| BlockParser.Parser.IterateInSubParser | rust/rotext/src/block/mod.rs:68-70 | the sub-parser turn is `InSubParserStep` |
| BlockParser.Parser.ProcessInRootState | rust/rotext/src/block/mod.rs:90-116 | computes what `InRootStep` gives |
| BlockParser.Parser.ProcessInSubParserState | rust/rotext/src/block/mod.rs:119-138 | computes what `InSubParserStep` gives |
| BlockParser.Parser.ParseRoot | rust/rotext/src/block/mod.rs:148-212 | returns and consumes what `ParseRootSpec` gives |
| BlockParser.Parser.SkipBlankLines | rust/rotext/src/block/mod.rs:152-182 | stops and consumes as `SkipBlanks` gives |
| BlockParser.Parser.DispatchAtChar | rust/rotext/src/block/mod.rs:184-211 | returns and consumes what `Dispatch` gives |
| BlockParser.Parser.DispatchAtEquals | rust/rotext/src/block/mod.rs:190-202 | returns and consumes what `DispatchEquals` gives |
| BlockParser.ResumeAndContinueSub | rust/rotext/src/block/mod.rs:162-165 | the paused sub-parser is resumed after the line feed |
| BlockParser.ResumeAndExitSub | rust/rotext/src/block/mod.rs:154-157 | the paused sub-parser is told to exit |
| BlockParser.CleanUpIsFinal | rust/rotext/src/block/mod.rs:55-59 | once the parser cleans up, every later call returns the end (the stack of `mod.rs` never holds an entry) |
| BlockParser.BlankInputEnds | rust/rotext/src/block/mod.rs:153-160 | input of only blank lines and spaces ends the parser and starts the clean-up |
| BlockParser.ParagraphYieldIsForwarded | rust/rotext/src/block/mod.rs:124 | a paragraph's event is returned and the paragraph keeps running |
| BlockParser.ParagraphPauseResumes | rust/rotext/src/block/mod.rs:125-130 | a paragraph paused at a line feed with input left is resumed on the next call |
| BlockParser.ParagraphPauseAtEndExits | rust/rotext/src/block/mod.rs:153-157 | a paragraph paused at the end of input is told to exit, so its `Exit` is still returned |
| BlockParser.CodeBlockDoneReturnsToRoot | rust/rotext/src/block/mod.rs:131-136 | a finished code block hands control back to the root |
| BlockParser.ThematicBreakDropsHyphens | rust/rotext/src/block/mod.rs:185-189 | `---` is a thematic break, and the whole run of `-` after it is consumed |
| BlockParser.EqualsRunEntersHeading | rust/rotext/src/block/mod.rs:190-198 | one to six `=` and a space enter a heading of that level |
| BlockParser.EqualsRunWithoutSpaceIsParagraph | rust/rotext/src/block/mod.rs:190-201 | a run of `=` either enters a heading or starts a paragraph; a heading (of the run's length) is entered only when a space follows the run, so a run without a following space starts a paragraph; when a run starts a paragraph, the paragraph's content before is exactly that run, at most six long, and no space follows it |
| BlockParser.FenceCountsBackticks | rust/rotext/src/block/mod.rs:203-209 | three backticks and `k` more enter a code block that needs `3 + k` to close |
| RefLink.ParseThread | packages/solid-components/src/ro-widgets/RefLink/create-ref-link-component.tsx:121-138 | the thread form yields only thread addresses with the given prefix and non-empty lowercase thread names |
| RefLink.ParseThreadSound | packages/solid-components/src/ro-widgets/RefLink/create-ref-link-component.tsx:121-138 | a thread is read only from content that is its name followed by nothing or `#` and digits, and a sub-thread only from its two names joined by `.` and followed by the same; the floor is the value of those digits |
| RefLink.ParseThreadOf | packages/solid-components/src/ro-widgets/RefLink/create-ref-link-component.tsx:121-138 | conversely, every content matching `[a-z]+(#\d+)?` is read as that thread and floor |
| RefLink.ParseSubThreadOf | packages/solid-components/src/ro-widgets/RefLink/create-ref-link-component.tsx:121-138 | conversely, every content matching `[a-z]+\.[a-z]+(#\d+)?` is read as that thread, sub-thread and floor |
| RefLink.ParseAddress | packages/solid-components/src/ro-widgets/RefLink/create-ref-link-component.tsx:110-139 | a parsed address has an uppercase prefix followed by `.` and content without line terminators; a post number is the value of non-empty all-digit content, and a thread address is what the thread grammar reads from content that is not all digits (`packages/solid-components/src/ro-widgets/RefLink.tsx` lines 122-151 hold an identical copy of this function) |
| RefLink.ParseAddressOf | packages/solid-components/src/ro-widgets/RefLink/create-ref-link-component.tsx:110-139 | conversely, every uppercase prefix, `.` and content without line terminators is read: all-digit content as a post number, other content by the thread grammar |
| RefLink.ParsedIsWellFormed | packages/solid-components/src/ro-widgets/RefLink/create-ref-link-component.tsx:141-155 | every address that is not `unknown` has the shape `RefAddress` describes |
| RefLink.ParseFormat | packages/solid-components/src/ro-widgets/RefLink/create-ref-link-component.tsx:110-139 | parsing the written form of any well-formed address gives that address back |
| RefLink.PostNumberExample | packages/solid-components/src/ro-widgets/RefLink/create-ref-link-component.tsx:116-118 | "ABC.12" is post 12 under prefix ABC |
| RefLink.UnknownExamples | packages/solid-components/src/ro-widgets/RefLink/create-ref-link-component.tsx:111-122 | a post number with a floor, empty content, and a lowercase prefix are all unknown |
| RefLink.SubThreadExample | packages/solid-components/src/ro-widgets/RefLink/create-ref-link-component.tsx:121-138 | "AB.cd.ef#12" is thread cd, sub-thread ef, floor 12 |
| RefLink.ThreadExample | packages/solid-components/src/ro-widgets/RefLink/create-ref-link-component.tsx:121-138 | "AB.cd" is thread cd with no floor |
| RefLink.RefContent.Mount | packages/solid-components/src/ro-widgets/RefLink/create-ref-link-component.tsx:64-79 | mounting registers the renderer's listeners and tells nobody anything, because the change effect is deferred |
| RefLink.RefContent.SetAddress | packages/solid-components/src/ro-widgets/RefLink/create-ref-link-component.tsx:46-77 | a different address reaches every change listener, in registration order, freshly parsed; the same address or a torn-down widget tells nobody |
| RefLink.RefContent.Teardown | packages/solid-components/src/ro-widgets/RefLink/create-ref-link-component.tsx:78 | every cleanup listener is called once, in order, and only on the first teardown |
| RefLink.ListenerScenario | packages/solid-components/src/ro-widgets/RefLink/create-ref-link-component.tsx:64-78 | mount, the same address, a new address and teardown give exactly the notices expected, in order |
| DisplayMode.ReportedCollapsed | packages/ankor/src/create-widget-component.tsx:491 | the widget sees itself collapsed only while collapsing is allowed |
| DisplayMode.InitialIsValid | packages/ankor/src/create-widget-component.tsx:373-406 | after creation and its effects the machine is valid, and an openable widget keeps its initial mode |
| DisplayMode.SetDelayedKeepsValid | packages/ankor/src/create-widget-component.tsx:376-406 | writing the auto-open request and running its effects keeps the machine valid and touches neither the flags nor the inputs |
| DisplayMode.MarkInteractedKeepsValid | packages/ankor/src/create-widget-component.tsx:379-384 | recording an interaction keeps the machine valid |
| DisplayMode.PointerEventsKeepValid | packages/ankor/src/create-widget-component.tsx:409-444 | enter, leave, touch and their timers keep the machine valid |
| DisplayMode.ClicksKeepValid | packages/ankor/src/create-widget-component.tsx:445-487 | the pin toggle, the guarded label click and expand keep the machine valid |
| DisplayMode.RequestsKeepValid | packages/ankor/src/create-widget-component.tsx:386-406 | auto-open requests and changes of both inputs keep the machine valid |
| DisplayMode.EnterOpensAndCancelsLeave | packages/ankor/src/create-widget-component.tsx:409-419 | enter opens a closed widget as floating, keeps an open one as it is, and cancels a pending leave |
| DisplayMode.LeaveThenTimer | packages/ankor/src/create-widget-component.tsx:420-436 | leave followed by its timer closes a floating widget; an enter in between keeps it floating |
| DisplayMode.ToggleKeepsPendingLeave | packages/ankor/src/create-widget-component.tsx:420-460 | a pin toggle after a leave pins the widget but leaves the pending leave in place, so the leave timer still closes it |
| DisplayMode.TogglePinningOutcome | packages/ankor/src/create-widget-component.tsx:445-460 | the pin toggle expands, records an interaction, forgets a touch, and swaps floating and pinned (closing after a touch) |
| DisplayMode.TouchThenToggleCloses | packages/ankor/src/create-widget-component.tsx:438-460 | a touch on the pin toggle followed by the click it causes closes the widget |
| DisplayMode.ClickLabelOutcome | packages/ankor/src/create-widget-component.tsx:462-473 | a label click pins an unpinned widget expanded; on a pinned widget it toggles the collapse only when collapsing is allowed |
| DisplayMode.AutoOpenPins | packages/ankor/src/create-widget-component.tsx:399-406 | an auto-open request pins an openable widget, collapsed when it asked to be and collapsing is allowed |
| DisplayMode.InteractionWithdrawsAutoOpen | packages/ankor/src/create-widget-component.tsx:380-384 | the first interaction withdraws a pending auto-open |
| DisplayMode.InputsOff | packages/ankor/src/create-widget-component.tsx:386-406 | turning `openable` off closes the widget and forgets the interaction; turning `collapsible` off expands it |
| DisplayMode.ClickLabelAsWrittenPinsUnopenable | packages/ankor/src/create-widget-component.tsx:462-473 | the label click as written pins a widget that cannot open, breaking the machine's invariant |
| DisplayMode.Widget.constructor | packages/ankor/src/create-widget-component.tsx:366-406 | the fields hold `Initial` of the inputs |
| DisplayMode.Widget.RunCollapseEffect | packages/ankor/src/create-widget-component.tsx:386-398 | the new state is `CollapseEffect` of the old |
| DisplayMode.Widget.RunOpenEffect | packages/ankor/src/create-widget-component.tsx:399-406 | the new state is `OpenEffect` of the old |
| DisplayMode.Widget.SetDelayedAutoOpen | packages/ankor/src/create-widget-component.tsx:376-378 | the new state is `SetDelayed` of the old |
| DisplayMode.Widget.MarkUserInteracted | packages/ankor/src/create-widget-component.tsx:379-384 | the new state is `MarkInteracted` of the old |
| DisplayMode.Widget.HandleEnter | packages/ankor/src/create-widget-component.tsx:409-419 | the new state is `Enter` of the old |
| DisplayMode.Widget.HandleLeave | packages/ankor/src/create-widget-component.tsx:420-436 | the new state is `Leave` of the old, with a timer armed when it starts leaving |
| DisplayMode.Widget.HandleLeaveTimer | packages/ankor/src/create-widget-component.tsx:429-434 | the new state is `LeaveTimerFired` of the old |
| DisplayMode.Widget.HandleTouchPinningTogglerEnd | packages/ankor/src/create-widget-component.tsx:439-444 | the new state is `TouchEnd` of the old |
| DisplayMode.Widget.HandleTouchTimer | packages/ankor/src/create-widget-component.tsx:443 | the new state is `TouchTimerFired` of the old |
| DisplayMode.Widget.HandleTogglePinning | packages/ankor/src/create-widget-component.tsx:445-460 | the new state is `TogglePinning` of the old |
| DisplayMode.Widget.HandleClickLabel | packages/ankor/src/create-widget-component.tsx:462-473 | the new state is `ClickLabel` (the guarded click) of the old |
| DisplayMode.Widget.HandleAutoOpen | packages/ankor/src/create-widget-component.tsx:475-477 | the new state is `AutoOpen` of the old |
| DisplayMode.Widget.HandleExpand | packages/ankor/src/create-widget-component.tsx:479-487 | the new state is `Expand` of the old |
| DisplayMode.Widget.ChangeOpenable | packages/ankor/src/create-widget-component.tsx:399-406 | the new state is `SetOpenable` of the old |
| DisplayMode.Widget.ChangeCollapsible | packages/ankor/src/create-widget-component.tsx:386-398 | the new state is `SetCollapsible` of the old |
| DisplayMode.LeaveAndReturnScenario | packages/ankor/src/create-widget-component.tsx:409-436 | hover, leave, re-enter and the stale timer leave the widget floating |
| DisplayMode.TouchToggleScenario | packages/ankor/src/create-widget-component.tsx:438-460 | touch, click and the reset timer close the widget and clear the touch flag |
| DisplayMode.CalculatePopperPosition | packages/ankor/src/create-widget-component.tsx:339-364 | no position inside a hidden ancestor; otherwise the popper sits below the label, no further right than the label and not past the anchor's right edge, at one of those two bounds |
| DisplayMode.SizeSyncer.constructor | packages/ankor/src/create-widget-component.tsx:518 | no size yet and nothing notified |
| DisplayMode.SizeSyncer.SyncSize | packages/ankor/src/create-widget-component.tsx:520-533 | the size becomes the measured one, and dependants are notified exactly when it changed |
| DisplayMode.SizeSyncer.SetEnabled | packages/ankor/src/create-widget-component.tsx:535-545 | enabling measures at once, disabling clears the size, and dependants are notified exactly when the size changed |
| Preview.ToNumber | website/src/pages/Playground/preview-parts/Preview/mod.tsx:81-82 | a missing piece is NaN, and a digit string is its value |
| Preview.BuildLookupListRaw | website/src/pages/Playground/preview-parts/Preview/mod.tsx:65-87 | an empty document gives an empty list; otherwise one entry per sourcemapped element, in document order, read from its attribute |
| Preview.SourcemapRoundTrip | website/src/pages/Playground/preview-parts/Preview/mod.tsx:77-84 | an attribute `a-b` reads back as start line a and end line b |
| Preview.SourcemapWithoutEnd | website/src/pages/Playground/preview-parts/Preview/mod.tsx:77-83 | an attribute without `-` has a NaN end line |
| Preview.ScrollToTopLineIgnores | website/src/pages/Playground/preview-parts/Preview/mod.tsx:211-217 | a top line without origin, written by the preview itself, or met with an empty list changes nothing |
| Preview.BottomRequestWritesBack | website/src/pages/Playground/preview-parts/Preview/mod.tsx:219-231 | the editor's request for the bottom is turned into the line at the bottom, tagged as the editor's, unless nothing can scroll |
| Preview.BottomRequestThenScroll | website/src/pages/Playground/preview-parts/Preview/mod.tsx:219-249 | the write-back re-runs the effect, which scrolls to that line and counts the scroll |
| Preview.CounterSteps | website/src/pages/Playground/preview-parts/Preview/mod.tsx:242-266 | the auto-scroll counter rises only when a scroll happened and falls only from a positive value |
| Preview.PendingScrollSuppressed | website/src/pages/Playground/preview-parts/Preview/mod.tsx:263-266 | while auto-scrolls are pending, a scroll event only uses one up |
| Preview.HandleScrollPublishes | website/src/pages/Playground/preview-parts/Preview/mod.tsx:268-294 | a scroll publishes the line at the offset, tagged as the preview's, exactly when the list is non-empty and the pane is not at its bottom below the editor's line; otherwise nothing changes |
| Preview.PreviewWriteDoesNotEcho | website/src/pages/Playground/preview-parts/Preview/mod.tsx:212-214 | a top line the preview wrote does not scroll the preview again |
| Preview.CounterBalance | website/src/pages/Playground/preview-parts/Preview/mod.tsx:201-266 | over any sequence of events, the counter plus the scroll events it swallowed equals its start plus the auto-scrolls performed |
| Preview.ScrollSync.constructor | website/src/pages/Playground/preview-parts/Preview/mod.tsx:201-255 | set-up measures `wasAtBottom` and runs both effects once |
| Preview.ScrollSync.SetTopLine | website/src/pages/Playground/preview-parts/Preview/mod.tsx:94 | the top line is replaced and the write is recorded |
| Preview.ScrollSync.ScrollToTopLine | website/src/pages/Playground/preview-parts/Preview/mod.tsx:210-245 | the new state is `AfterScrollToTopLine` of the old |
| Preview.ScrollSync.RunTopLineEffect | website/src/pages/Playground/preview-parts/Preview/mod.tsx:249-255 | the new state is `TopLineEffect` of the old |
| Preview.ScrollSync.EditorSetsTopLine | website/src/pages/Playground/preview-parts/Preview/mod.tsx:249 | the editor's write is followed by the top-line effect |
| Preview.ScrollSync.HandleScroll | website/src/pages/Playground/preview-parts/Preview/mod.tsx:262-295 | the new state is `AfterHandleScroll` of the old; the effect its write re-runs changes nothing |
| Preview.ScrollSync.OutputResized | website/src/pages/Playground/preview-parts/Preview/mod.tsx:206-208 | only `wasAtBottom` is re-measured |
| Preview.HighlightRect | website/src/pages/Playground/preview-parts/Preview/mod.tsx:323-347 | a highlight exists exactly when the list is non-empty and lines are active; it starts at the top item and ends at the bottom item's bottom (one item's height for a single line) |

## Left out

- `rust/rotext/src/block/sub_parsers/heading.rs` is not part of this model. When the root parser enters a heading, `BlockParser.NextSpec` reports `HeadingNotModelled` instead of the heading's events.
- `block::context`, `Peekable3` and `InputCursor` are not part of this model. The context is specified abstractly, as a read position in the mapped token sequence, with the helpers the parsers call.
- `global_mapper.rs` is written against an older token type (`BlankLine`, `SpacesAtLineBeginning`) than `content.rs` and `block/mod.rs` (`BlankAtLineBeginning`). Each is modelled against its own type, and the two are not connected.
- `code_block.rs` passes content options (`is_at_line_beginning`, `at_end_of_leading_repetitive_characters_at_new_line`) that `content.rs`'s `Options` lacks. They are modelled as the line-beginning repetitive-characters condition of `content.rs`, with the code parser starting after a line feed.
- `content.rs`'s `resume_from_pause_for_new_line_and_continue` takes no argument, while `paragraph.rs` passes a `NewLine`. The argument is dropped.
- The `Stack` trait is not modelled. `VecStack` and `ArrayStack` are classes with the trait's three methods.
- `ArrayStack`'s `MaybeUninit` slots are not modelled. The array is default-initialised, and a popped slot keeps its old value, which only `len` hides.
- `From<u8>` transmutes any byte, and a byte that is no discriminant gives undefined behaviour. The model's `FromU8` gives `None` for such a byte.
- Events are simplified:
  - The renderer's `BlendEvent` stream comes from the blend and inline phases, which are not part of this model. It is an input sequence.
  - The renderer's `unwrap`/`unreachable!` panics are a `Panicked` outcome. `Render.RenderToHtml` requires the stream to render without one.
- The global parser is not modelled. Its events are an input sequence whose ranges lie in the input.
- The test cases of `global_mapper.rs` with carriage returns (`"\r\n"`, `"\r\n\r\n"`, `"a\r\n\r\n"`, lines 182-183, 186-187 and 192-193) are not stated. How a `\r\n` pair is cut into events is decided by the global parser, which is not part of this model.
- `usize` overflow, the output capacity hint and the `leak` of test flags are not modelled. Integers are unbounded.
- Strings are sequences of characters, and bytes map to characters one for one. UTF-8 decoding of ranges is not modelled.
- Preview.ToNumber: JavaScript `Number()` is modelled only for decimal digit strings and for a missing piece. Any other text is an opaque non-number. Signs, whitespace, exponents and hexadecimal are not interpreted.
- RefLink.ParseAddress: `parseInt` is modelled as the exact value of the digits. Precision loss above 2^53 is not modelled.
- RefLink.ParseAddress: the regular expressions are written out as character scans. `\d` is taken as ASCII digits, and `.` as any character but the four line terminators.
- The reactive runtime of Solid is not modelled.
  - Effects run synchronously right after the signal write that triggers them, in creation order.
  - A signal write of an equal value does not notify.
  - `createMemo` re-runs only for a different string.
- Timers are not modelled as time. `setTimeout` callbacks are explicit "timer fired" inputs, with a count of armed timers. The 100 ms and leave delays are not modelled.
- DisplayMode.TogglePinning: one might expect a pin toggle to cancel a pending leave, as `enter` does. `handleTogglePinning` (create-widget-component.tsx:445-460) never clears `leaving`, and the model follows the code: only `enter` cancels a pending leave (`DisplayMode.ToggleKeepsPendingLeave`). With a pointer, reaching the pin icon fires the popper's `enter` first.
- The `console.warn` of the guarded handlers is not modelled. They do nothing.
- The DOM is not modelled:
  - rectangles, offsets, `offsetParent` and sizes are parameters;
  - `ResizeObserver` callbacks are method calls;
  - the layout-change subscriptions are left out;
  - styles, cursors and portals are not modelled.
- `calculatePopperPosition`'s numbers are reals. Floating-point rounding is not modelled.
- The `ScrollUtils` helpers (`getScrollLocalByY`, `scrollLocalToLine`, `scrollToLine`, `isAtBottom`, `getScrollLocalByLine`, `roastLookupList`) are not part of this model. What they return arrives as parameters.
- `createAutoResetCounter`'s automatic reset is not modelled. The counter only moves through `increase` and `decrease`.
- `scrollToTopLine`'s `triggeredBy` option only reaches `scrollToLine`. The model folds it into the parameter that stands for `scrollToLine`'s result.
- A top line of NaN or negative infinity is not modelled. The number is a finite line or positive infinity.
- `Idiomorph.morph`, the error alert and the widget-owner registration are not modelled. `innerText` clearing is not modelled either.
- The debounce of the scroll handler is not modelled. Each call is one `handleScroll`.
- The reference-link widget's rendering and pin button are not modelled. Its model covers the address memo and the two listener lists.

## Findings

| source | as written | input that shows it | evidently intended | confidence | as-written member | corrected member |
|---|---|---|---|---|---|---|
| packages/ankor/src/create-widget-component.tsx:463 | `handleClickLabel` returns early on `!opts.openable`. That tests whether the `openable` function exists, which it always does, so the click goes ahead even when `openable()` is false. | a widget created with `openable()` false and not collapsible: a label click pins it, while every other handler would do nothing | guard on `!opts.openable()`, as every other handler does, so that a widget that cannot open stays closed; the model follows this reading, not the code | low, not executed; the label only gets this handler while `openable()` is true (line 266), so a stale listener is the only way in | DisplayMode.ClickLabelAsWrittenPinsUnopenable | DisplayMode.ClicksKeepValid |
