# Textorizer in Dafny

Textorizer turns arbitrary, possibly malformed HTML into plain text:
- element tags become layout (line breaks, list bullets, tab indentation);
- script and style bodies are dropped;
- character entities are decoded;
- runs of whitespace collapse to one space.

The work is done by a three-stage pipeline:

1. **The scanner** (`Scanner.ScanNextToken`) walks a cursor over the source. It cuts the source into text, entity, open-, close- and self-closing-tag tokens. Each tag is classified by `HtmlTagParser.Parse`, and each token is stamped with a running block level.
2. **The tag-balance driver** (`HtmlTextorizer.Textorize` / `HandleCloseTag`) keeps a stack of open elements. It repairs mis-nested close tags by closing orphaned elements at the same depth.
3. **The writer** (`HtmlToPlainTextWriter`) decides what each token appends to the output. Its decision depends on the enclosing element, the previous token, the pre and list nesting counters, and what the output ends on.

This project models all three stages of the current generation (`Textorizer`):

| File | Module | Models |
|---|---|---|
| `source_scan.dfy` | `SourceScan` | the cursor, `SourceScanState` |
| `html.dfy` | `Html` | the token, the element enumeration and the token's source span |
| `tag_parser.dfy` | `TagParser` | the classifier |
| `scanner.dfy`, `scanner_lemmas.dfy` | `Scanner`, `ScannerLemmas` | the scanner |
| `writer.dfy` | `Writer` | the writer, including the one-pass whitespace reducer as a loop over a buffer |
| `textorizer.dfy` | `Textorizer` | the driver |
| `scenarios.dfy` | `Scenarios` | three of the unit-test conversions, scanned from the literal input and worked through the driver |

It also models the first generation (`DCrafting.Textorize`) in modules of its own:
- `LegacyScanner`, `LegacyWriter` and `LegacyTextorizer`;
- `LegacyScenarios`, which holds that generation's test conversions and the input that makes its driver loop forever (see "Findings").

The .NET character predicates, upper-casing and `WebUtility.HtmlDecode` are not part of this model. They are fields of the record `Runtime.Library`, which every operation takes as its parameter `rt`. `Runtime.Axioms` lists the few facts the model relies on:
- space, tab, CR and LF are whitespace;
- the markup characters `< > / & ; " '` and NUL are neither whitespace nor letters or digits;
- a letter or digit is never whitespace.

`Runtime.Ascii` is a concrete library that agrees with .NET on ASCII. The worked scenarios use it.

Integers are unbounded. The source's `int` counters (positions, block depth, pre and list depth) cannot overflow on any input a .NET string can hold, because each is bounded by the input length.

## Model

| member | source | states |
|---|---|---|
| SourceScan.Fresh | source/Textorizer/SourceScanState.cs:19-28 | a new cursor is at position 0 with start index 0, block level 0 and not inside a tag, and it is at the end exactly when the input is empty |
| SourceScan.Advance | source/Textorizer/SourceScanState.cs:36-45 | at the end it answers NUL and does not move; otherwise it answers the character under the cursor and moves one place |
| SourceScan.BackTrack | source/Textorizer/SourceScanState.cs:47-59 | a target ahead of the cursor, before the token start, or at or past the end is refused with NUL and no move; any other target becomes the position and its character is answered; it never moves forward |
| SourceScan.AdvanceBy | source/Textorizer/SourceScanState.cs:61-71 | a count that would pass the end, or a cursor already at the end, leaves the position unchanged; otherwise the position moves by exactly the count |
| SourceScan.LookAhead | source/Textorizer/SourceScanState.cs:73-81 | answers the next `count` characters when that many remain, and the empty sequence otherwise |
| SourceScan.PeekNext | source/Textorizer/SourceScanState.cs:83-91 | answers what `Advance` would answer, without moving |
| SourceScan.PeekNextUnsafe | source/Textorizer/SourceScanState.cs:93-96 | on a cursor not at the end, agrees with `PeekNext` |
| SourceScan.LookAheadPredictsAdvances | source/Textorizer/SourceScanState.cs:73-81 | when `LookAhead(n)` is non-empty, the next n calls of `Advance` answer exactly its characters |
| SourceScan.BackTrackUndoesAdvance | source/Textorizer/SourceScanState.cs:47-59 | backtracking to the position an `Advance` started from restores the cursor and answers the character that was consumed |
| SourceScan.AdvanceAtEndIsStuck | source/Textorizer/SourceScanState.cs:36-45 | any number of advances at the end keep answering NUL and never move |
| Html.Value | source/Textorizer/Html/Token.cs:33-36 | a token's value is its slice of the source: same length, same character at every index |
| TagParser.KnownElement | source/Textorizer/Html/HtmlTagParser.cs:62-77 | the name table never answers None or Invalid; it answers Other exactly for names outside the nine known names, and for every name longer than six characters |
| TagParser.ClassifyName | source/Textorizer/Html/HtmlTagParser.cs:57-83 | a tag name is never classified None, and it is Invalid exactly when it starts with a digit |
| TagParser.Parse | source/Textorizer/Html/HtmlTagParser.cs:7-78 | text shorter than 3 characters or not starting with `<` is None; anything else is classified by its upper-cased first word, the word after the leading whitespace and slashes |
| TagParser.ParseSpellings | source/Textorizer/Html/HtmlTagParser.cs:24-55 | whatever mix of whitespace and slashes precedes the name, and whatever terminator follows it, the tag is classified by the upper-cased name alone |
| TagParser.NamelessTagIsOther | source/Textorizer/Html/HtmlTagParser.cs:39-77 | a tag with no name characters (such as `</>`) is Other |
| TagParser.LongNameIsOther | source/Textorizer.UnitTests/SimpleHtmlScannerTests.cs:288-299 | a name longer than six characters that does not start with a digit is Other |
| TagParser.ParseSpellingsOfP | source/Textorizer.UnitTests/SimpleHtmlScannerTests.cs:267-286 | `<p>`, `<p/>` and `</p>` are all paragraphs |
| TagParser.ParseSpacedSpellingsOfP | source/Textorizer/Html/HtmlTagParser.cs:24-37 | `<  p  />` and `</  p  >` are paragraphs: whitespace around the name is ignored |
| TagParser.ParseIgnoresCase | source/Textorizer/Html/HtmlTagParser.cs:54 | `</ScRiPt >` is a script tag: the name is matched without regard to case |
| TagParser.ParseUnknownNames | source/Textorizer.UnitTests/SimpleHtmlScannerTests.cs:198-208 | `<a>` is Other and `<1>` is Invalid |
| Scanner.CreateToken | source/Textorizer/Html/Scanner.cs:133-140 | the token spans the source from the token start to the cursor and carries the cursor's block level |
| Scanner.AdjustBlockLevel | source/Textorizer/Html/Scanner.cs:349-361 | a non-Invalid open tag raises the level and is stamped with the level before it; a non-Invalid close tag lowers it and is stamped with the level after it; every other token leaves the level alone |
| Scanner.OpenCloseBalance | source/Textorizer/Html/Scanner.cs:349-361 | an open tag and its close tag carry the same stamp and leave the block level where it was |
| Scanner.AdvanceWhiteSpaces | source/Textorizer/Html/Scanner.cs:363-371 | it stops on a non-whitespace character, and does not move if it starts on one |
| ScannerLemmas.AdvanceWhiteSpacesLands | source/Textorizer/Html/Scanner.cs:363-371 | the character it stops on is the first non-whitespace source character from where it started, or NUL at the end |
| Scanner.ScanEntity | source/Textorizer/Html/Scanner.cs:31-81 | it emits an entity exactly when `&` is followed by a letter or `#`, then one or more letters or digits, then `;`, and the entity ends at that `;`; otherwise it has passed no `<` or `&`, and the `&` starts text |
| ScannerLemmas.EntityEndUnique | source/Textorizer/Html/Scanner.cs:31-81 | an entity starting at a given `&` has exactly one end |
| Scanner.TagBody | source/Textorizer/Html/Scanner.cs:160-191 | it stops at the first `<` or `>` outside double quotes; a `<` aborts the tag; otherwise it answers the last non-whitespace character seen |
| ScannerLemmas.SkipRawTextStops | source/Textorizer/Html/Scanner.cs:220-333 | after a script or style open tag, the body skip stops at the first `</script>` or `</style>` (any letter case) at or after the cursor; once too little input is left for one, it stops at the next `<` or the end |
| Scanner.SkipBody | source/Textorizer/Html/Scanner.cs:220-333 | only a script or style open tag skips a body; every other tag leaves the cursor where it was |
| Scanner.FinishTag | source/Textorizer/Html/Scanner.cs:202-218 | a tag that reached `>` ends just past it, keeps its tag type, and is classified by the parser on exactly its own text |
| Scanner.ScanTagRest | source/Textorizer/Html/Scanner.cs:150-211 | the tag is either a tag token or, when a `<` interrupts it, an Invalid text token that ends right before that `<` |
| ScannerLemmas.ScanTagOutcome | source/Textorizer/Html/Scanner.cs:142-347 | a tag either aborts at the next unquoted `<` as Invalid text; or runs off the end as an Invalid tag; or ends at its `>`, with a self-closing, close or open type taken from its last and first non-whitespace characters and its body skipped |
| Scanner.ScanTagStart | source/Textorizer/Html/Scanner.cs:83-108 | a `<` begins either a tag token that reaches past the character after the `<`, or Invalid text |
| Scanner.ScanText | source/Textorizer/Html/Scanner.cs:111-130 | a stray `>` is one Invalid text character; any other text run extends up to the next `<` or `&`, or the end |
| Scanner.ScanAmpersand | source/Textorizer/Html/Scanner.cs:31-81 | an `&` is either an entity ending at its `;` or the start of a text run that stops at the next `<` or `&` |
| Scanner.ScanNextToken | source/Textorizer/Html/Scanner.cs:16-131 | Eof is answered exactly at the end, with the cursor unchanged; every other token starts at the cursor and ends no later than the cursor it leaves, which is at least one character further on; a tag token starts with `<`, is at least three characters long and has a kind; the cursor is never left inside a tag |
| ScannerLemmas.LessThanStep | source/Textorizer/Html/Scanner.cs:83-108 | a `<` with fewer than two characters after it is Invalid text running to the end; any other `<` gives one of the three tag outcomes, judged from the first non-whitespace character after it |
| ScannerLemmas.GreaterThanStep | source/Textorizer/Html/Scanner.cs:111-121 | a `>` is a one-character Invalid text token at the block level |
| ScannerLemmas.TextStep | source/Textorizer/Html/Scanner.cs:123-130 | a character other than `<`, `>` or `&` starts a text token that runs to the next `<` or `&` |
| ScannerLemmas.AmpersandStep | source/Textorizer/Html/Scanner.cs:31-81 | at an `&` the scanner answers an entity exactly when one starts there, ending where it ends; otherwise a text run to the next `<` or `&` |
| ScannerLemmas.PlainTagStep | source/Textorizer/Html/Scanner.cs:83-218 | a `<`, a non-whitespace character and text free of `<`, `>` and `"` up to a `>`, unless it opens a script or style body, is one tag token spanning exactly that text; its type comes from the character after the `<` and the last non-whitespace character before the `>`, its kind from the parser on its own text, its stamp from the block-level rule, and the scan resumes right after the `>` |
| ScannerLemmas.TextRunStep | source/Textorizer/Html/Scanner.cs:123-130 | a run that starts on a character other than `<`, `>` or `&` is one text token of kind None up to the next `<` or `&`, or the end, and the scan resumes there |
| ScannerLemmas.SpacedEntityIsText | source/Textorizer/Html/Scanner.cs:31-81 | `&gt   ;`, with spaces before the `;`, is one text token of kind None, not an entity |
| Writer.EmptyOutputEndsOnNothing | source/Textorizer/Html/HtmlToPlainTextWriter.cs:199-207 | an empty output ends on neither a line break nor whitespace |
| Writer.ReduceHtmlWhiteSpaces | source/Textorizer/Html/HtmlToPlainTextWriter.cs:161-197 | the reduced text is never longer than the input, and it is empty only for empty input |
| Writer.ReduceKeepsVisible | source/Textorizer/Html/HtmlToPlainTextWriter.cs:161-197 | reduction keeps every non-whitespace character, in order |
| Writer.ReduceIsReduced | source/Textorizer/Html/HtmlToPlainTextWriter.cs:161-197 | in the reduced text every whitespace character is a single space that never follows another whitespace character |
| Writer.ReducedIsFixed | source/Textorizer/Html/HtmlToPlainTextWriter.cs:161-197 | text already in reduced form is left exactly as it is |
| Writer.ReduceIdempotent | source/Textorizer/Html/HtmlToPlainTextWriter.cs:161-197 | reducing twice gives the same text as reducing once |
| Writer.ReduceInto | source/Textorizer/Html/PlainTextWriter.cs:185-219 | the one-pass buffer loop writes exactly the reduced text to the front of the buffer, returns its length (never more than the input's), and leaves the rest of the buffer as it was |
| Writer.SkipWhiteSpaceRun | source/Textorizer/Html/PlainTextWriter.cs:199-210 | the inner loop stops at the first non-whitespace character after the run, or at the end |
| Writer.ReduceToString | source/Textorizer/Html/PlainTextWriter.cs:167-181 | the string overload answers the reduced text |
| Writer.TextToAppend | source/Textorizer/Html/HtmlToPlainTextWriter.cs:78-137 | an entity appends its decoding |
| Writer.WriteText | source/Textorizer/Html/HtmlToPlainTextWriter.cs:78-137 | the output is only appended to |
| Writer.WriteTextKeepsVisible | source/Textorizer/Html/HtmlToPlainTextWriter.cs:86-135 | for a text run, the writer changes only whitespace, never drops or reorders a visible character, and never appends more than the run's length |
| Writer.PreformattedText | source/Textorizer/Html/HtmlToPlainTextWriter.cs:86-100 | right after a pre open tag only leading CR and LF characters are dropped; deeper inside pre the text is copied exactly |
| Writer.ElementTextIsReduced | source/Textorizer/Html/HtmlToPlainTextWriter.cs:102-121 | inside an element, outside pre, the appended text is `ReduceHtmlWhiteSpaces` of the value, trimmed at the front when the output ends a line or the text opens a list item; so it is in reduced form and, in the trimmed case, starts with no whitespace |
| Writer.TopLevelText | source/Textorizer/Html/HtmlToPlainTextWriter.cs:122-143 | outside every element, text is copied as is unless it follows an element; after an element it is `TrimStart` of the value when the output already ends on whitespace, and otherwise `ReduceHtmlWhiteSpaces` of the value, which is in reduced form |
| Writer.WriteOpenElement | source/Textorizer/Html/HtmlToPlainTextWriter.cs:9-43 | an Invalid current tag is written as text; every other kind appends only layout: a line break for p, br and hr; a line break for an outermost list; a line break, one tab per list level (at least one) and `- ` for a list item; nothing for the rest |
| Writer.WriteCloseElement | source/Textorizer/Html/HtmlToPlainTextWriter.cs:45-76 | an Invalid current tag is written as text; a paragraph end appends a line break, and so does the end of an outermost list; every other kind appends nothing |
| Writer.ElementRulesIgnoreToken | source/Textorizer/Html/HtmlToPlainTextWriter.cs:9-76 | what an open or close writes depends on the state's current token, not on the token handed in, unless that kind is Invalid |
| Textorizer.SetInHtmlElementToParentOrNone | source/Textorizer/Html/HtmlTextorizer.cs:140-146 | the current element becomes the kind of the top of the stack, or None on an empty stack; nothing else changes |
| Textorizer.HandleCloseTag | source/Textorizer/Html/HtmlTextorizer.cs:88-138 | handling a close tag only appends to the output and leaves the pre and list counters alone; on an empty stack the close tag is written once, with the stack untouched |
| Textorizer.OpenElement | source/Textorizer/Html/HtmlTextorizer.cs:41-56 | an open tag of a real kind is pushed at the next depth, the depth rises by one, and it becomes the current element |
| Textorizer.Step | source/Textorizer/Html/HtmlTextorizer.cs:31-83 | after each token, that token is both the current and the previous token, and the output has only grown |
| Textorizer.Run | source/Textorizer/Html/HtmlTextorizer.cs:31-85 | the final text extends whatever was written before |
| Textorizer.Textorize | source/Textorizer/Html/HtmlTextorizer.cs:16-21 | empty or whitespace-only input gives the empty string |
| Textorizer.Tokens | source/Textorizer/Html/HtmlTextorizer.cs:31 | the scanner yields at most one token per remaining source character before Eof, none only at the end, and each lies in the source and has a kind if it is a tag |
| Textorizer.RunIsDrive | source/Textorizer/Html/HtmlTextorizer.cs:31-85 | the scan loop gives the same result as the loop body folded over the scanner's token stream |
| Textorizer.OpenElementInv | source/Textorizer/Html/HtmlTextorizer.cs:41-45 | pushing an open tag of a real kind keeps the stack discipline: depth equals stack height, each entry records its own depth, the current element is the top's kind |
| Textorizer.PopInv | source/Textorizer/Html/HtmlTextorizer.cs:140-146 | popping and moving to the parent's kind keeps the stack discipline |
| Textorizer.HandleCloseTagBalanced | source/Textorizer/Html/HtmlTextorizer.cs:88-138 | under the stack discipline a close tag always finishes after at most one pop; a matching top writes one close, and an orphan at the same depth writes its own close and then the close tag in its parent's context |
| Textorizer.StepBalanced | source/Textorizer/Html/HtmlTextorizer.cs:31-83 | each loop step finishes and keeps the stack discipline |
| Textorizer.DriveBalanced | source/Textorizer/Html/HtmlTextorizer.cs:31-83 | over any stream of scanned tokens the loop finishes and keeps the stack discipline |
| Textorizer.TextorizeTerminates | source/Textorizer/Html/HtmlTextorizer.cs:16-138 | `Textorize` returns for every input: the close-tag loop never spins on an unchanged stack |
| Textorizer.StepCounters | source/Textorizer/Html/HtmlTextorizer.cs:47-70 | each step moves the pre counter by that token's pre open/close balance and the list counter by its ul/ol balance |
| Textorizer.DriveCounters | source/Textorizer/Html/HtmlTextorizer.cs:47-70 | after any token stream the pre counter is the number of pre open tags minus pre close tags, and the list counter the same for ul and ol, matched or not |
| Textorizer.StepOpen | source/Textorizer/Html/HtmlTextorizer.cs:39-59 | a non-Invalid open tag is pushed and raises its counter before the open writer runs, and the writer sees the state after the push |
| Textorizer.StepInert | source/Textorizer/Html/HtmlTextorizer.cs:35-38 | text, entities, self-closing tags and Invalid open tags leave the stack, depth, current element and counters alone |
| Textorizer.StepClose | source/Textorizer/Html/HtmlTextorizer.cs:60-72 | a close tag is written with the counters as they were; the pre or list counter drops only afterwards |
| Scenarios.PlainParagraph | source/Textorizer.UnitTests/HtmlTextorizerTests.cs:12 | the literal `<p>plain text</p>` scans to an open p, the text and a close p, and `Textorize` turns it into a line break, the text, and a line break |
| Scenarios.OrphanedParagraph | source/Textorizer.UnitTests/HtmlTextorizerTests.cs:19 | the literal `<p>hoi<p>ook</div></P><p>deef</p>` scans to the nine tokens written out in the model, and `Textorize` turns it into `\nhoi\nook\n\ndeef\n`: the stray close tag closes the orphaned inner paragraph |
| Scenarios.ParagraphWithList | source/Textorizer.UnitTests/HtmlTextorizerTests.cs:21 | the literal two-item list in a paragraph scans to the ten tokens written out in the model, and `Textorize` turns it into `\n\n\n\t- item 1\n\t- item 2\n\n` |
| LegacyScanner.LegacyKind | source/DCrafting.Textorize/Html/SimpleHtmlScanner.cs:200-205 | the first generation has no pre: a pre name is Other, every other kind is unchanged |
| LegacyScanner.RunStop | source/DCrafting.Textorize/Html/SimpleHtmlScanner.cs:31-69 | the entity run stops at the first `;`, NUL or whitespace, or the end, and contains none of them |
| LegacyScanner.ScanEntity | source/DCrafting.Textorize/Html/SimpleHtmlScanner.cs:31-69 | it emits an entity exactly when `&` is followed by a letter or `#` and then a letter or digit, and the run after them, up to the first `;`, NUL or whitespace, is closed by a `;` either directly or after whitespace (so `&gt   ;` is an entity here) |
| LegacyScanner.SkipScript | source/DCrafting.Textorize/Html/SimpleHtmlScanner.cs:207-234 | a script body is skipped up to the first `<` outside single and double quotes, or the end |
| LegacyScanner.SkipStyle | source/DCrafting.Textorize/Html/SimpleHtmlScanner.cs:236-275 | a style body is skipped up to the first `</style>` (any letter case), or to where fewer than eight characters are left |
| LegacyScanner.SkipBody | source/DCrafting.Textorize/Html/SimpleHtmlScanner.cs:207-275 | only a script or style open tag skips a body |
| LegacyScanner.FinishTag | source/DCrafting.Textorize/Html/SimpleHtmlScanner.cs:189-205 | a tag that reached `>` ends just past it, keeps its type and has its body skipped |
| LegacyScanner.ScanAmpersand | source/DCrafting.Textorize/Html/SimpleHtmlScanner.cs:31-96 | an `&` is an entity or, failing that, falls through to the tag and text rules; a tag reached that way has kind None or Invalid |
| LegacyScanner.ScanNextToken | source/DCrafting.Textorize/Html/SimpleHtmlScanner.cs:16-118 | Eof exactly at the end; each other token moves the cursor forward; no token is ever of kind pre; an entity token is exactly a legacy entity and ends where the cursor stops; a tag token either starts with `<` and has a kind, or starts with `&` and has kind None or Invalid |
| LegacyScanner.PlainTagStep | source/DCrafting.Textorize/Html/SimpleHtmlScanner.cs:71-205 | as in the current generation, such a tag is one token spanning exactly its text, typed and stamped alike, with its kind from the parser and pre read as Other |
| LegacyScanner.TextRunStep | source/DCrafting.Textorize/Html/SimpleHtmlScanner.cs:110-117 | a run that starts on a character other than `<`, `>` or `&` is one text token of kind None up to the next `<` or `&`, or the end |
| LegacyScanner.SpacedEntityIsEntity | source/DCrafting.Textorize/Html/SimpleHtmlScanner.cs:31-69 | `&gt   ;` is one entity token ending at the `;` |
| LegacyWriter.TextToAppend | source/DCrafting.Textorize/Html/HtmlToPlainTextWriter.cs:74-123 | an entity appends its decoding |
| LegacyWriter.WriteText | source/DCrafting.Textorize/Html/HtmlToPlainTextWriter.cs:74-123 | the output is only appended to |
| LegacyWriter.TextKeepsVisible | source/DCrafting.Textorize/Html/HtmlToPlainTextWriter.cs:87-122 | for a text run, the writer changes only whitespace and never lengthens it |
| LegacyWriter.TopLevelTextIsReduced | source/DCrafting.Textorize/Html/HtmlToPlainTextWriter.cs:109-118 | outside every element, the appended text is `ReduceHtmlWhiteSpaces` of the value, also trimmed at the front when the output ends a line; so it is in reduced form and then starts with no whitespace |
| LegacyWriter.ElementTextKeepsWhiteSpace | source/DCrafting.Textorize/Html/HtmlToPlainTextWriter.cs:87-122 | inside an element text keeps its whitespace; only inside p or li, right after a tag of a real kind, is the leading whitespace dropped |
| LegacyWriter.ListIndent | source/DCrafting.Textorize/Html/HtmlToPlainTextWriter.cs:36 | a list item is indented by its block depth minus two tabs, and by at least one |
| LegacyWriter.WriteOpenElement | source/DCrafting.Textorize/Html/HtmlToPlainTextWriter.cs:11-42 | dispatching on the token's own kind: Invalid is written as text; p, ul, ol, br and hr append a line break; li appends `ListIndent(depth)` tabs and `- `, with no line break; the rest append nothing |
| LegacyWriter.WriteCloseElement | source/DCrafting.Textorize/Html/HtmlToPlainTextWriter.cs:44-72 | Invalid is written as text; the end of p or li appends a line break; the rest append nothing |
| LegacyTextorizer.Ascend | source/DCrafting.Textorize/Html/HtmlTextorizer.cs:96-102 | after a pop the depth drops by one and the current element becomes the parent's kind, or None |
| LegacyTextorizer.HandleCloseTag | source/DCrafting.Textorize/Html/HtmlTextorizer.cs:78-144 | the output is only appended to; an empty stack writes the close tag once; a top of kind None neither matches nor is another element, so the do-while never leaves |
| LegacyTextorizer.OpenElement | source/DCrafting.Textorize/Html/HtmlTextorizer.cs:43-48 | an open tag is pushed at the next depth and becomes the current element |
| LegacyTextorizer.Step | source/DCrafting.Textorize/Html/HtmlTextorizer.cs:32-73 | after each token it is the previous token, and the output has only grown |
| LegacyTextorizer.Textorize | source/DCrafting.Textorize/Html/HtmlTextorizer.cs:16-21 | empty or whitespace-only input gives the empty string |
| LegacyTextorizer.Tokens | source/DCrafting.Textorize/Html/HtmlTextorizer.cs:32 | the scanner yields at most one token per remaining character, none only at the end, and a tag of kind None always starts with `&` |
| LegacyTextorizer.StepOpen | source/DCrafting.Textorize/Html/HtmlTextorizer.cs:41-57 | an open tag is pushed, unless it is Invalid (or, in the corrected driver, None), and the open writer sees the depth and element after the push |
| LegacyTextorizer.StepInert | source/DCrafting.Textorize/Html/HtmlTextorizer.cs:36-40 | text, entities and self-closing tags leave the stack, depth and current element alone |
| LegacyTextorizer.HandleCloseTagBalanced | source/DCrafting.Textorize/Html/HtmlTextorizer.cs:78-144 | when only real kinds are on the stack, a close tag always finishes after at most one pop, keeping the stack discipline |
| LegacyTextorizer.DriveBalanced | source/DCrafting.Textorize/Html/HtmlTextorizer.cs:32-73 | the corrected driver finishes over any scanned token stream and keeps the stack discipline |
| LegacyTextorizer.CorrectedTerminates | source/DCrafting.Textorize/Html/HtmlTextorizer.cs:16-144 | with None-kind tags kept off the stack, `Textorize` returns for every input |
| LegacyTextorizer.NoneOpenThenCloseHangs | source/DCrafting.Textorize/Html/HtmlTextorizer.cs:85-143 | as written, an open tag of kind None is pushed, and any close tag after it makes the driver loop forever |
| LegacyTextorizer.StepAgrees | source/DCrafting.Textorize/Html/HtmlTextorizer.cs:41-57 | on every token other than a None-kind open tag, the written and corrected drivers take the same step |
| LegacyTextorizer.DriveAgrees | source/DCrafting.Textorize/Html/HtmlTextorizer.cs:32-73 | on a stream without None-kind open tags the two drivers give the same result |
| LegacyTextorizer.WithoutAmpersandAgrees | source/DCrafting.Textorize/Html/HtmlTextorizer.cs:16-76 | on input without `&` the driver as written returns, with the same text as the corrected one |
| LegacyScenarios.StrayHangs | source/DCrafting.Textorize/Html/HtmlTextorizer.cs:85-143 | `&ab <p></p>` scans as a None-kind open tag `&ab <p>` and a close tag; as written the driver never returns, while the corrected driver gives `\n` |
| LegacyScenarios.OrphanedParagraph | source/DCrafting.Textorize.UnitTests/HtmlTextorizeTests.cs:20 | this generation scans the literal `<p>hoi<p>ook</div></P><p>deef</p>` to the same nine tokens, and its `Textorize` as written turns it into `\nhoi\nook\n\n\ndeef\n` |
| LegacyScenarios.ParagraphWithList | source/DCrafting.Textorize.UnitTests/HtmlTextorizeTests.cs:22 | this generation scans the literal two-item list in a paragraph to the same ten tokens, and its `Textorize` as written turns it into `\n\n\t- item 1\n\t- item 2\n\n` |

## Left out

- Unicode character tables and `WebUtility.HtmlDecode` are parameters of the model (`Runtime.Library`), constrained only by `Runtime.Axioms`. Nothing is proved about what a decoded entity contains.
- The re-encoding property (converting, HTML-encoding the result with `WebUtility.HtmlEncode`, and converting again gives the same text) is not stated. It rests on the encoder and decoder, which are parameters here.
- `ReplaceHtmlWhiteSpacesClassic` is not modelled, in either generation. The writers never call it.
- The facade and interfaces (`Textorize.cs`, `ITextorizer`, `IHtmlToTextWriter`) are not modelled. They only forward to the driver or declare signatures.
- `StringBuilder`, `Span`, `stackalloc` and the stack's initial capacity of 32 are not modelled. The model ignores stack exhaustion: the writers reduce a text run in a stack buffer as long as the run (`Textorizer/Html/HtmlToPlainTextWriter.cs:170`, `DCrafting.Textorize/Html/HtmlToPlainTextWriter.cs:137`), and the classifier copies a tag's whole text into one (`Textorizer/Html/HtmlTagParser.cs:39`). Only `PlainTextWriter.cs:174-177` caps its buffer, at 256 characters. A text run or tag text of millions of characters can therefore end the process with a stack overflow, the limit `ParseToElementTypeNoStackOverflowTest` (`Textorizer.UnitTests/SimpleHtmlScannerTests.cs:288-299`) probes; the model returns normally on such input.
- The benchmark programs and the unit-test fixtures are not modelled. Some of the test cases are stated as lemmas (the worked scenarios and the classifier spellings).
- Writer.TextToAppend, Writer.WriteText: their own contracts state only the entity case and append-only output. Each branch of the text rules is pinned down exactly by `Writer.PreformattedText`, `Writer.ElementTextIsReduced` and `Writer.TopLevelText`. `Writer.WriteTextKeepsVisible` adds that a text run changes only whitespace.
- LegacyWriter.TextToAppend, LegacyWriter.WriteText: the same as above. Each branch of the text rules is pinned down exactly by `LegacyWriter.TopLevelTextIsReduced` and `LegacyWriter.ElementTextKeepsWhiteSpace`. `LegacyWriter.TextKeepsVisible` adds that a text run changes only whitespace.
- Three branches of `Scanner.ScanNextToken` cannot be reached, and the model writes them as proved-dead branches:
  - `Scanner.cs:52-56`: a `;` consumed inside the entity loop, which only consumes a character after checking it is a letter or digit;
  - `Scanner.cs:72-76`: a letter or digit after the whitespace skip, which never moves off one;
  - `Scanner.cs:86-94`: `IsInTag` at the start of a token, which is never true between calls.
- The `ArgumentOutOfRangeException` default branches of the driver and writer switches are not modelled, because the enumerations are closed. The legacy writer's exception for pre is unreachable too, because the legacy scanner never yields pre.
- The first generation's cursor, classifier and element enumeration are not part of this model. The current ones are reused, with pre mapped to Other because the first generation has no pre.
- The first generation's `ReplaceHtmlWhiteSpacesNew` (legacy `HtmlToPlainTextWriter.cs:133-163`) is modelled by `Writer.ReduceHtmlWhiteSpaces`. It is the same one-pass loop.
- At the end of input, the first generation's `ScanNextToken` moves the token start to the position before answering Eof; the model leaves the cursor unchanged. Nothing reads the cursor after Eof.
- `TextorizeState.cs` declares no list counter, yet the driver and writer use `ListDepth`. The model's state carries `listDepth` alongside `preDepth`, starting at 0 like `PreDepth`.
- Where the code and its own comments or the HTML standard differ, the model follows the code:
  - The comments of the current generation's entity branch say that spaces are allowed before the terminating `;` (`Scanner.cs:34`) and give `&gt    ;` as the example (`Scanner.cs:59-62`). The code tests `PeekNext() == ';'` after a whitespace skip that never moves off the run's last character, with the test on the current character commented out (`Scanner.cs:65`). So `&gt   ;` is text, not an entity (`ScannerLemmas.SpacedEntityIsText`); the first generation does accept it (`LegacyScanner.SpacedEntityIsEntity`).
  - After a pre open tag, every leading CR and LF is dropped, not only the single leading line feed that section 13.2.6.4.7 of the WHATWG HTML Living Standard discards.
  - `AdjustBlockLevel` (`Scanner.cs:349-361`) exempts only Invalid from the block level, so a tag of kind None would move it; the current scanner never classifies a tag as None.

## Findings

| source | as written | input that shows it | evidently intended | confidence | as-written member | corrected member |
|---|---|---|---|---|---|---|
| source/DCrafting.Textorize/Html/HtmlTextorizer.cs:43-143 | the driver pushes every open tag except Invalid, including one of kind None (an `&` that is not an entity and runs into a tag). A later close tag then finds None on top, which neither matches nor counts as another element, and the do-while re-tests the unchanged stack forever | `&ab <p></p>` | only tags of a real kind go on the stack, as in the current generation, so every close tag finishes | not executed | LegacyScenarios.StrayHangs | LegacyTextorizer.CorrectedTerminates |
