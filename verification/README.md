# wr-proxy in Dafny

`wr-proxy` is the Go gateway that stands between chat clients and upstream model providers. This project models its
stateful core and proves what that core keeps, call by call and over whole runs:

- translation between the OpenAI and Anthropic protocols, whole messages (`Requests`, `RequestMeaning`, `WireFormat`,
  `RequestRoundTrip`, `Responses`) and event streams in both directions (`StreamOpenAI`, `StreamFraming`,
  `StreamRefinement`, `StreamPayloads`, `StreamAnthropic`);
- masking of sensitive text and its restoration: the pass over one text (`Replace`, `Desensitize`, `Hiding`), markers
  inside markers (`Nesting`, `BracketFree`), restoring in every order (`Restoring`, `LostTexts`), whole JSON bodies
  with their encoding (`Bodies`, `Paths`, `EncodedBodies`), a request as a whole (`Desensitizer`), and the built-in
  rules (`BuiltinRules`);
- the token quota kept in memory by competing deductions and carried to the database by deltas and snapshots
  (`Quota`);
- choosing a provider, session stickiness, and the failover loop (`Providers`, `Routing`, `Router`, `Choosing`,
  `Failover`, `Attempts`);
- recalled sessions and the table of turns (`SessionMemory`, `SessionStorage`, `Recalling`, `TurnNumbers`), and
  request sanitising (`Sanitizer`, `Cleaning`);
- rate limiting, the burn rate and the chunkers (`RateLimiter`, `Predictor`, `Chunker`).

Loops and updated objects of the Go code are methods and classes proved equal to specification functions; the theorems
are lemmas about those functions. What the functions behind the main operations mean is proved apart from them, with
keys, roles, reasons, limits and conditions written out: in the contracts themselves, or in `RequestMeaning`,
`Hiding`, `Paths`, `Choosing`, `Attempts`, `Recalling` and `Cleaning`. JSON documents are values (`Json.Value`); the
byte syntax enters only through a `Codec`, whose `parse` and `compact` are parameters, and the `Layout` of an encoded
body. The upstream replies, the clock, random draws, the rules' pattern matches, and whether a read, an insert or a
write succeeds are parameters as well.

`dafny verify dfyconfig.toml` checks everything.

## What the proofs say about the code

Several promises of the code's comments hold only under a condition. The project proves the condition exactly, unless an
entry says otherwise:

- **Streaming and batch differ on empty tool inputs.** The batch translator writes `{}` for a tool input that is empty or
  not JSON, the streaming one passes the pieces on. For payloads with any further members, the two agree exactly when
  every tool input is non-empty valid JSON (`StreamRefinement.StreamRefinesBatch`, `StreamPayloads.PayloadSays`); a tool
  called without input is a stream on which they differ (`StreamPayloads.EmptyToolInputDiffers`).
- **A broken upstream is cut off cleanly.** When reading fails, the client has a beginning of what any continuation
  would have given, without finish reason and end marker (`StreamFraming.BrokenStreamIsCut`).
- **Restoring depends on the order when a match was replaced inside a marker.** The order is that of a Go map, so it
  is arbitrary. A text without `[` comes back in every order if and only if no match was replaced inside a marker, and
  the masked text shows it by nested brackets (`BracketFree.RestoredInEveryOrder`, `BracketFree.NestingShows`). The
  built-in rules never do that while they find fewer than ten thousand million matches, and with them any text comes
  back if and only if it spells none of its own markers (`BuiltinRules.BuiltinRoundTrip`); the same holds with custom
  rules whose matches are distinctive (`BuiltinRules.DistinctiveRoundTrip`). An exact rule for the word `PHONE` does
  it: it is found in `[PHONE_1]` (`LostTexts.NestedMarkerIsLost`).
- **Nothing that a rule finds is sent**, in a plain text, if no original lies inside a marker
  (`Hiding.NothingFoundIsLeft`, `Desensitizer.NothingFoundIsSent`); distinctive rules see to that condition
  (`Hiding.DistinctiveHides`).
- **Restoring loses text that already spells a marker**, and only that text, when no original lies inside a marker
  (`Restoring.RestoreInvertsMask`); otherwise such a text may survive (`LostTexts.SpelledYetRestored`).
- **A restored body is what the encoder wrote** exactly when, besides, no marker that is shown stands for a text with
  characters to escape (`EncodedBodies.RestoreInvertsBody`): originals are put back without their escapes
  (`EncodedBodies.EscapedOriginalComesBackRaw`). Strings in arrays inside arrays are not masked
  (`Bodies.DesensitizeItem`).
- **Strings of one body share markers.** Counters start again with every string while the table is shared, so two
  strings with different phone numbers share `[PHONE_1]` (`LostTexts.NoClashExactly`). A string masked whole is then
  restored as what the last string with its marker held there (`LostTexts.ClashLosesExactly`,
  `LostTexts.ClashLosesTheFirst`).
- **The database can count a deduction twice**: a snapshot that already contains it, then its delta from the channel
  (`Quota.DoubleCounting`). After a commit it stays at or below memory in every continuation if and only if what was
  outstanding at the commit is at most what was accepted between reading the value and committing it
  (`Quota.AheadExactly`); the commit makes the two equal if and only if nothing was accepted in between
  (`Quota.CleanFlush`).
- **Late text in a translated stream.** Reasoning sent after the finish reason never reaches an Anthropic client
  (`StreamAnthropic.StreamAgreesWithBatch`).
- **Stripping tools starts only from a tool field at the top** of the request; tool messages alone pass through
  (`Sanitizer.StrippingIsComplete`, `Sanitizer.ToolResultSlipsThrough`). A request of nothing but tool messages is left
  with `"messages": null`.
- **The retry with more tokens after a truncated reply is never made.** Truncation is noticed only while a reply is
  relayed (proxy.go:712-755), after the loop has judged the reply that `ForwardSmart` returned, and no such reply counts
  as truncated (`Failover.ForwardedExactly`). So an attempt makes at most one call more than its retries, every call
  carries the cleaned request, and what is served is fine (`Failover.CallsPerAttempt`, `Failover.ServedReplies`).
- **When all providers failed the final error may have status 200**: exactly when the last provider first sent an error
  text with that status (`Failover.FailureStatus`).
- **One minute may see almost twice the limit**: windows are fixed, and `2 * limit - 1` is attained
  (`RateLimiter.MinuteAdmitsLessThanTwice`, `RateLimiter.MinuteCanAdmitAllBut`).
- **A clean-up can overtake a turn number.** Reading the next index and inserting the two turns are separate
  statements, and the clean-up is a goroutine of its own. The turns of a session always follow one another without gap
  or repetition, but they start at 0 if and only if the last clean-up of the session did not come between an index
  read above 0 and its insert (`TurnNumbers.TurnsStayNumbered`, `TurnNumbers.CleanUpOvertakes`).
- **A chunk is never closed early**: one that could take the next segment takes it (`Chunker.MergedChunksAreFilled`).
- **A sticky binding is not renewed by use**: it runs out ten minutes after it was made (`Router.StickyOverRuns`).
- **A negative overlap makes the fixed chunker skip text** (`Chunker.FixedLosesNothing`).
- **The placeholder loop does not end for an empty placeholder** in a text that is not empty (`Replace.ScanEnds`). Its
  only caller wraps names in braces.

## Model

| member | source | states |
|---|---|---|
| Replace.ReplacePlaceholder | wr-proxy/mcp_prompts.go:90-103 | the scanning loop computes leftmost, non-overlapping replacement of every occurrence; the empty text for every placeholder |
| Replace.ScanEnds | wr-proxy/mcp_prompts.go:93-101 | for every placeholder: some number of rounds reaches the end of the text if and only if the placeholder is not empty or the text is |
| Replace.ReplaceIsSplitJoin | wr-proxy/mcp_prompts.go:90-103 | replacing is cutting the text at the occurrences and gluing with the value; gluing with the placeholder gives the text back, and no piece holds it |
| Replace.ReplaceAbsent | wr-proxy/mcp_prompts.go:90-103 | a text without the placeholder's first character is unchanged |
| Replace.ReplaceOnce | wr-proxy/mcp_prompts.go:90-103 | a single occurrence is replaced where it stands |
| Desensitize.MarkerInjective | wr-proxy/desensitize.go:320 | two markers are equal only if category and number are, whatever characters the categories hold |
| Decimal.ItoaSpells | wr-proxy/desensitize.go:320 | the digits in a marker spell its number, without a leading zero |
| Desensitize.ReplacementMap.Add | wr-proxy/desensitize.go:93-97 | the marker now stands for the original, so restoring it alone gives the original; the rest of the table is unchanged |
| Desensitize.ReplacementMap.Restore | wr-proxy/desensitize.go:108-115 | the result is that of replacing every marker once, in some traversal order of the table |
| Desensitize.MaskMatch | wr-proxy/desensitize.go:307-325 | one match: skipped if it holds a bracket, replaced by its marker if seen in this rule, else given the next number of its category and a line of the summary |
| Desensitize.MaskMatches | wr-proxy/desensitize.go:299-325 | the loop over the matches found in the text before the loop started |
| Desensitize.DesensitizeText | wr-proxy/desensitize.go:260-329 | the masked text, the table extended by exactly the markers minted for this text, and the summary by their lines |
| Desensitize.SummaryCountsMarkers | wr-proxy/desensitize.go:318-323 | the summary of a text has a line for every marker of its table, so it is empty exactly when nothing was minted |
| Desensitize.SummaryHides | wr-proxy/desensitize.go:367-372 | the summary shows an original as its first and last three characters, and one of at most eight as stars |
| Hiding.NothingFoundIsLeft | wr-proxy/desensitize.go:299-325 | a bracket-free text that a rule finds when its turn comes is nowhere in the masked text, if no original lies inside a marker |
| Hiding.DistinctiveHides | wr-proxy/desensitize.go:260-329 | with distinctive rules and a bounded number of matches that condition holds |
| Nesting.PutRenders | wr-proxy/desensitize.go:315-324 | replacing a bracket-free match in a masked text acts on its tree of markers, however deep the match lies |
| Nesting.PutReads | wr-proxy/desensitize.go:318-324 | putting a marker where its original stood does not change what the masked text stands for |
| Nesting.MaskStands | wr-proxy/desensitize.go:260-329 | for every text and all rules, the masked text is a text with markers put into it that stands for the original; no marker is broken if every match spares the markers before it |
| Restoring.RestoreTokens | wr-proxy/desensitize.go:111-113 | restoring one marker replaces it where it was put, and where plain text spelled it |
| Restoring.RestoreRun | wr-proxy/desensitize.go:108-115 | restoring any text with markers in it, in any order, gives its meaning, or strictly fewer opening brackets if the meaning spells a marker |
| Restoring.RestoreInvertsMask | wr-proxy/desensitize.go:260-329 | for every traversal order: restoring inverts masking if every match spared the markers before it and the text spells none; if no original lies inside a marker, if and only if the text spells none |
| Restoring.RestoreInvertsMaskFresh | wr-proxy/desensitize.go:260-329 | the same for one text with a fresh table, for all texts and rules |
| BracketFree.RestoredInEveryOrder | wr-proxy/desensitize.go:260-329 | a text without an opening bracket comes back in every traversal order if and only if no match was replaced inside a marker |
| BracketFree.NestingShows | wr-proxy/desensitize.go:260-329 | such a text has a match replaced inside a marker if and only if its masked text nests brackets |
| BracketFree.NumbersWithin | wr-proxy/desensitize.go:318-320 | no number in a marker exceeds the number of matches found |
| BracketFree.HarmlessSeparates | wr-proxy/desensitize.go:299-325 | if no rule finds a part of a marker numbered up to the matches found, no original lies inside a marker of the table |
| Restoring.BracketFreeRoundTrip | wr-proxy/desensitize.go:260-329 | with such rules every text without an opening bracket comes back in every order |
| BuiltinRules.LongNumberMisses | wr-proxy/desensitize.go:318-325 | a match with a number of more than k digits lies in no marker numbered below 10^k |
| BuiltinRules.DistinctiveRoundTrip | wr-proxy/desensitize.go:260-329 | with rules whose matches hold such a number or a character foreign to markers, and fewer than 10^k matches: every text comes back, in every order, if and only if it spells none of its markers |
| BuiltinRules.BuiltinRoundTrip | wr-proxy/desensitize.go:58-77 | the same for the built-in rules and fewer than 10^10 matches |
| BuiltinRules.BuiltinBodyRoundTrip | wr-proxy/desensitize.go:187-247 | a JSON body masked by the built-in rules without a clash comes back over its encoding, in every order, if and only if no marker shown stands for a text to escape and the encoding spells no marker |
| LostTexts.NestedMarkerIsLost | wr-proxy/desensitize.go:260-329 | for any two categories: a masking run that breaks a marker, restored in one order and not in the other |
| LostTexts.SpelledYetRestored | wr-proxy/desensitize.go:260-329 | a text that spells a marker and comes back, because an original lies inside that marker |
| Bodies.DesensitizeJSON | wr-proxy/desensitize.go:332-341 | for members in any order: every string the walk reaches is masked and nothing else, table and summary grow by what these strings mint, and the result says modified exactly if something changed |
| Bodies.DesensitizeMember | wr-proxy/desensitize.go:335-349 | a string is masked, an object or array walked, anything else left |
| Bodies.DesensitizeItem | wr-proxy/desensitize.go:346-361 | strings and objects in an array are masked, arrays inside it are passed over |
| Bodies.DesensitizeItems | wr-proxy/desensitize.go:345-361 | the elements in order |
| Paths.MaskedAtEveryPlace | wr-proxy/desensitize.go:332-365 | at the end of every path from the body: a string is its masked text unless the path leads through an array directly inside an array, and everything else is as it was |
| Paths.ReachedByPaths | wr-proxy/desensitize.go:332-365 | the walk masks exactly the strings that such a path leads to |
| Desensitizer.GetActiveRules | wr-proxy/desensitize.go:140-175 | at level `standard` and `strict` the built-in rules, then exactly the enabled custom rules in their order, at `standard` only those of that level; no rule at any other level |
| Desensitizer.LevelsGrow | wr-proxy/desensitize.go:140-175 | the strict level applies whatever the standard one does, and an unknown level nothing |
| Desensitizer.DesensitizeRequest | wr-proxy/desensitize.go:187-237 | switched off, `null`, an object or any other body: result, table, summary and flags of each case; at the default, standard and strict level a plain text that a built-in rule finds whole becomes the first marker of its category, reported in one line |
| Desensitizer.NothingFoundIsSent | wr-proxy/desensitize.go:199-234 | nothing that an active rule finds in a plain text is left in what is sent, if no original lies inside a marker |
| Desensitizer.UnmodifiedIsUntouched | wr-proxy/desensitize.go:214-234 | a result not reported modified is the client's body, and one that is has markers to restore |
| EncodedBodies.PiecesOfMasked | wr-proxy/desensitize.go:217-231 | the encoding of the masked body differs from that of the body in the reached strings only |
| EncodedBodies.RestoreInvertsBody | wr-proxy/desensitize.go:187-247 | if no marker got two originals and no match was replaced inside a marker, restoring the encoded masked body in any order gives the encoded body when it spells no marker and no marker shown stands for a text that needs escaping; if no original lies inside a marker, exactly then |
| EncodedBodies.EscapedOriginalComesBackRaw | wr-proxy/desensitize.go:240-247 | an original that needs escaping comes back unescaped, so the restored body is not the encoded one |
| Restoring.RestoreInvertsString | wr-proxy/desensitize.go:250-255 | each masked string of a body, restored with the table of the body, under the conditions of a single text |
| LostTexts.NoClashExactly | wr-proxy/desensitize.go:263 | the table of a body keeps every original if and only if no two strings mint the same marker for different originals |
| LostTexts.ClashLosesExactly | wr-proxy/desensitize.go:263 | a string masked whole is restored as what the last string with its marker held there, so it is lost exactly when that is another text |
| LostTexts.ClashLosesTheFirst | wr-proxy/desensitize.go:263 | two strings with different matches share a marker and both are restored as the second |
| Responses.TranslateAnthropicToOpenAIResponse | wr-proxy/protocol.go:574-640 | texts and thoughts joined in order, tool calls in order with `{}` for inputs that are empty or invalid, and usage; the finish reason for every stop reason, with tools used and without |
| Responses.OneMoreBlock | wr-proxy/protocol.go:580-609 | what each further block adds: text, thought, or a call with its input or `{}`, and nothing for other blocks |
| StreamOpenAI.Translator.EmitChunk | wr-proxy/stream_openai.go:44-76 | one record is appended, with only the parts that are not empty |
| StreamOpenAI.Translator.EmitToolCallChunk | wr-proxy/stream_openai.go:79-111 | one tool record for the slot is appended; empty identifier and name are left out |
| StreamOpenAI.Translator.EmitFinal | wr-proxy/stream_openai.go:228-241 | the finish chunk: mapped stop reason, turned to `tool_calls` if tools were used and it is empty or `stop`, with the usage |
| StreamOpenAI.Translator.OnMessageStart | wr-proxy/stream_openai.go:143-156 | usage is taken over when it decodes, the role record is written in any case |
| StreamOpenAI.Translator.OnContentBlockStart | wr-proxy/stream_openai.go:158-174 | a tool block gets the next slot under its block index; other blocks write nothing |
| StreamOpenAI.Translator.OnContentBlockDelta | wr-proxy/stream_openai.go:176-202 | non-empty text and thinking pieces and pieces of known tool blocks are passed on |
| StreamOpenAI.Translator.OnMessageDelta | wr-proxy/stream_openai.go:204-226 | a non-empty stop reason and positive counts replace the earlier ones |
| StreamOpenAI.Translator.OnLine | wr-proxy/stream_openai.go:115-243 | one line: event name kept over blank lines, other fields ignored, `[DONE]` leaves, `message_stop` ends |
| StreamOpenAI.Translator.ReadLines | wr-proxy/stream_openai.go:115-243 | the read loop: state, output and way of leaving are those of the lines up to the one that ends the stream |
| StreamOpenAI.AnthropicSSEToOpenAISSE | wr-proxy/stream_openai.go:23-259 | the transcript of the state machine for every sequence of lines, or, exactly if reading fails before a line ended the stream, an error after the records so far |
| StreamFraming.TranscriptIsFramed | wr-proxy/stream_openai.go:158-258 | for every sequence of lines: one end marker, in last place; a finish reason only right before it; slots opened 0, 1, 2, ...; argument pieces only for opened slots |
| StreamFraming.RunIsBodyThenEnd | wr-proxy/stream_openai.go:228-258 | a stream is a body without end markers followed by at most one closing chunk and the end marker |
| StreamFraming.RestIsIgnored | wr-proxy/stream_openai.go:138-140 | what follows the line that ends the stream has no influence |
| StreamFraming.BrokenStreamIsCut | wr-proxy/stream_openai.go:116-122 | what was written when reading fails is a beginning of the transcript of any continuation, with slots in order and without finish reason, usage or end marker |
| StreamRefinement.HandleIsEffect | wr-proxy/stream_openai.go:142-226 | a payload that decodes to an event, whatever else it holds, has exactly the effect of the event |
| StreamPayloads.PayloadSays | wr-proxy/stream_openai.go:142-226 | with any further members that are not read, at any level, the payload of an event decodes to the event |
| StreamPayloads.EmptyToolInputDiffers | wr-proxy/stream_openai.go:158-202 | a conforming stream with a tool called without input: empty arguments when streamed, `{}` in batch |
| StreamRefinement.Simulate | wr-proxy/stream_openai.go:142-226 | every event keeps translator state, accumulated client answer and folded message in agreement |
| StreamRefinement.FramesSimulate | wr-proxy/stream_openai.go:115-243 | so does every sequence of event frames, with either line ending |
| StreamRefinement.RawAgainstBatch | wr-proxy/protocol.go:574-640 | streamed and batch tool arguments are equal if and only if every tool input is non-empty valid JSON |
| StreamRefinement.StreamRefinesBatch | wr-proxy/stream_openai.go:115-243 | accumulating the stream gives the batch translation of the message it spells: content, reasoning, ordered tool calls, finish reason, usage; arguments exactly when inputs are valid |
| StreamRefinement.UnstoppedStreamRefinesBatch | wr-proxy/stream_openai.go:245-258 | the same when the stream ends without `message_stop` after its stop reason |
| StreamRefinement.StreamTellsFinish | wr-proxy/stream_openai.go:228-258 | the accumulated finish reason for every stop reason, with tools used and without, and the usage of the message |
| StreamRefinement.RoleComesFirst | wr-proxy/stream_openai.go:143-156 | the stream starts with a chunk of the role and empty content |
| Requests.CallBlocks | wr-proxy/protocol.go:491-502 | one tool block for each call in order, with `{}` for arguments that are empty or invalid |
| Requests.AssistantBlocks | wr-proxy/protocol.go:485-502 | text first if there is any, then one tool block for each call in order |
| Requests.SplitMessages | wr-proxy/protocol.go:458-522 | system texts are collected, every other message becomes one Anthropic message in order |
| Requests.TranslateOpenAIToAnthropicRequest | wr-proxy/protocol.go:425-528 | the whole request, with the default for a missing token limit |
| Requests.SplitBlocks | wr-proxy/protocol.go:219-249 | texts, tool calls and tool results of a message, each in order |
| Requests.TranslateMessage | wr-proxy/protocol.go:208-274 | a content read as blocks, if every element decodes: tool results first, each a message of its own, then one message for texts and calls if there are any; any other content as its text |
| Requests.TranslateMessages | wr-proxy/protocol.go:207-274 | the messages in order |
| Requests.TranslateTools | wr-proxy/protocol.go:185-192 | every tool as a function with its schema, in order |
| Requests.TranslateAnthropicToOpenAI | wr-proxy/protocol.go:164-277 | the whole request as received, the system text in front when it is not empty |
| RequestMeaning.RequestIsSaid | wr-proxy/protocol.go:425-528 | the whole request: what it says, to whom, the system text, the token limit of 4096 for none, tools and sampling |
| RequestMeaning.ArrayIsItsWords | wr-proxy/protocol.go:102-121 | for every role, a content array that decodes translates as the string of its non-empty text parts, line by line; other parts change nothing |
| RequestMeaning.ToolChoices | wr-proxy/protocol.go:535-559 | `auto`, `required` and a named function become `auto`, `any` and a named tool |
| RequestMeaning.OtherChoices | wr-proxy/protocol.go:535-559 | a tool choice is passed on if and only if it is one of these |
| RequestMeaning.ToolChoicesBack | wr-proxy/protocol.go:283-303 | `auto`, `any` and a named tool back, and nothing for any other choice |
| RequestMeaning.BlockIsDecoded | wr-proxy/protocol.go:212-249 | which elements of a content array decode, and to which block |
| RequestMeaning.ContentIsRead | wr-proxy/protocol.go:208-218 | a content is an array of blocks if all its elements decode, and otherwise its text |
| RequestMeaning.BlocksAreSaid | wr-proxy/protocol.go:219-270 | a message of blocks: tool results as messages of their own, then its words and calls |
| RequestMeaning.RequestIsSaidBack | wr-proxy/protocol.go:164-277 | the request back: system text in front, messages in order, limits and tools |
| WireFormat.WrittenMessageIsRead | wr-proxy/protocol.go:469-522 | a message written in the Anthropic format is read back as it was, its tool inputs compacted |
| RequestRoundTrip.CallTrips | wr-proxy/protocol.go:491-502 | a tool call comes back as a function call with valid JSON arguments, its own if they were valid |
| RequestRoundTrip.CallsTrip | wr-proxy/protocol.go:485-509 | tool calls keep their order and leave no trace in texts and results |
| RequestRoundTrip.MessageTrips | wr-proxy/protocol.go:425-528 | every message but a system message comes back as one canonical message, itself if it was canonical |
| RequestRoundTrip.ChoiceTrips | wr-proxy/protocol.go:535-559 | a tool choice comes back canonical, itself if it was |
| RequestRoundTrip.TripIsCanonical | wr-proxy/protocol.go:164-277 | any request at all, sent through both translators, is canonical |
| RequestRoundTrip.CanonicalTrips | wr-proxy/protocol.go:425-528 | a canonical request comes back as it was, up to the layout of its tool arguments |
| RequestRoundTrip.RoundTripExactlyCanonical | wr-proxy/protocol.go:425-528 | the two translators undo each other on a request if and only if it is canonical |
| RequestRoundTrip.SecondTripChangesNothing | wr-proxy/protocol.go:164-277 | going there and back twice is going once |
| RequestRoundTrip.CompactIsTheSameRequest | wr-proxy/protocol.go:491-507 | re-encoding tool arguments keeps their JSON value and everything else |
| StreamAnthropic.WriteChoice | wr-proxy/stream_anthropic.go:95-149 | content is written at once, reasoning kept until the finish reason and written only if there was no content |
| StreamAnthropic.WriteChoices | wr-proxy/stream_anthropic.go:95-149 | the choices of a chunk in order |
| StreamAnthropic.StreamAnthropicResponse | wr-proxy/stream_anthropic.go:20-153 | the read loop emits the events of the specification for every sequence of lines, and reports an error exactly if reading fails before an end marker |
| StreamAnthropic.FinishedStream | wr-proxy/stream_anthropic.go:43-150 | text, stop reason and usage of the events of every stream that finishes once |
| StreamAnthropic.StopReasonIsTold | wr-proxy/protocol.go:361-406 | the stop reason of a finished stream and of the batch answer for every finish reason |
| StreamAnthropic.FinishedStreamIsFramed | wr-proxy/stream_anthropic.go:43-150 | such a stream is one block start, text pieces, block stop, message delta, message stop |
| StreamAnthropic.DataLines | wr-proxy/stream_anthropic.go:43-70 | which lines carry a chunk, which end the stream, and which are passed over |
| StreamAnthropic.StreamAgreesWithBatch | wr-proxy/stream_anthropic.go:43-150 | the streamed text equals the batch text if and only if nothing that matters arrives behind the finish reason |
| StreamAnthropic.FinalChunkAgreesWithBatch | wr-proxy/protocol.go:361-393 | with the finish reason in the last chunk, text and stop reason agree with the batch translation |
| StreamAnthropic.UnfinishedStream | wr-proxy/stream_anthropic.go:43-150 | without a finish reason the content is passed on, the reasoning is lost, and no stop reason is sent |
| Quota.StepInv | wr-proxy/db.go:845-957 | every atomic step keeps the accounts of memory, channel, hand, threads, snapshot and database in balance |
| Quota.MemoryIsSumOfAccepted | wr-proxy/db.go:845-881 | over every interleaving, memory use is the initial use plus the accepted costs |
| Quota.QuotaIsNeverExceeded | wr-proxy/db.go:845-881 | a limited token that starts within its quota never exceeds it |
| Quota.RefusedOnlyBeyondQuota | wr-proxy/db.go:857-863 | over every run a refusal is possible only if the token is limited and its use with the cost is above the total, then and now |
| Quota.FittingDeductionIsAccepted | wr-proxy/db.go:845-881 | from every reachable state: a deduction that fits, or of a token without limit, can be made, and the use grows by exactly the cost; one that does not is refused |
| Quota.DroppedOnlyWhenFull | wr-proxy/db.go:864-871 | a delta is dropped only when 2048 are waiting |
| Quota.OldestIsWritten | wr-proxy/db.go:884-913 | the oldest waiting delta is taken next, and written its cost is in the database |
| Quota.DatabaseTracksMemory | wr-proxy/db.go:884-957 | in every reachable state: last snapshot <= database <= memory + what was outstanding at the last commit |
| Quota.SnapshotIsKept | wr-proxy/db.go:916-926 | a running flush keeps the values it read |
| Quota.CommitLagsByAccepted | wr-proxy/db.go:916-957 | a commit leaves the database behind memory by exactly what was accepted since the value was read |
| Quota.CleanFlush | wr-proxy/db.go:916-957 | the commit makes database and memory equal if and only if nothing was accepted in between; if nothing was outstanding either, the database only lags until the next commit |
| Quota.AheadExactly | wr-proxy/db.go:884-957 | after a commit the database never exceeds memory, in any continuation up to the next one, if and only if what was outstanding at the commit is at most what was accepted between read and commit |
| Quota.Lags | wr-proxy/db.go:904-913 | between commits the database is memory less what is outstanding or dropped |
| Quota.FailedSwapMeansProgress | wr-proxy/db.go:845-881 | between the load and a failed swap of one thread, another thread's swap succeeded |
| Quota.DoubleCounting | wr-proxy/db.go:884-957 | a run after which the database exceeds memory by a deduction counted twice |
| RateLimiter.Limiter.CheckRateLimit | wr-proxy/auth.go:32-48 | no limit lets everything through; the first request, and any a minute after the window began, opens a window; others are counted, refused or not, and let through up to the limit |
| RateLimiter.MinuteAdmitsLessThanTwice | wr-proxy/auth.go:32-48 | over whole traces, every half-open minute admits at most twice the limit less one |
| RateLimiter.MinuteCanAdmitAllBut | wr-proxy/auth.go:32-48 | a trace for every limit on which a minute admits that many |
| RateLimiter.WindowAdmitsExactly | wr-proxy/auth.go:32-48 | every window admits all its requests up to the limit and no more |
| RateLimiter.TokensAreIndependent | wr-proxy/auth.go:32-48 | what a token is granted depends on its own requests alone |
| Predictor.PlainMean | wr-proxy/predictor.go:125-131 | the loop for few days computes the mean |
| Predictor.WeightedMean | wr-proxy/predictor.go:134-142 | the second loop computes the mean with weights 1, 2, ..., n |
| Predictor.CalculateBurnRate | wr-proxy/predictor.go:120-143 | 0 for no days, the plain mean for one or two, and otherwise the mean with weights 1, 2, ..., n |
| Predictor.FirstDays | wr-proxy/predictor.go:120-143 | the rate of no, one, two and three days |
| Predictor.RateTimesDays | wr-proxy/predictor.go:134-142 | from three days on, the rate times `n * (n + 1) / 2` is the sum of the days counted 1, 2, ..., n times |
| Predictor.RampSnoc | wr-proxy/predictor.go:136-141 | each day counts once more than the day before it |
| Predictor.RateIsBetweenExtremes | wr-proxy/predictor.go:120-143 | the rate lies between the cheapest and the dearest day |
| Predictor.RateLeansToRecentDays | wr-proxy/predictor.go:134-142 | at least the plain mean for rising costs, at most for falling ones (Chebyshev's sum inequality) |
| Chunker.ChunkFixed | wr-proxy/chunker.go:51-75 | the loop ends and yields the windows of the adjusted size and overlap |
| Chunker.WindowsOfTheText | wr-proxy/chunker.go:51-75 | chunk k starts at k steps of size less overlap and is a size long or up to the end; the last is where no other would start; 512 and a quarter of the size as defaults |
| Chunker.FixedLosesNothing | wr-proxy/chunker.go:51-75 | chunks are non-empty and within the size; dropping overlaps gives the text back if and only if the overlap is not negative or one chunk suffices |
| Chunker.AddSegment | wr-proxy/chunker.go:130-148 | a segment that does not fit closes the chunk and starts one with the last runes of the closed one |
| Chunker.MergeChunks | wr-proxy/chunker.go:122-154 | the chunks of all segments, the last one only if it is not empty |
| Chunker.MergeLosesNothing | wr-proxy/chunker.go:122-154 | dropping the repetitions gives the segments back in order, for every size and overlap |
| Chunker.MergedChunksAreBounded | wr-proxy/chunker.go:122-154 | no chunk is empty or longer than the size or the overlap plus the longest segment |
| Chunker.MergedChunksAreFilled | wr-proxy/chunker.go:122-154 | each chunk holds consecutive segments behind the last runes of the chunk before; none that fits is split off, and none is added that does not |
| SessionMemory.EstimateTokens | wr-proxy/session_memory.go:95-106 | one token for each CJK rune, one for each four others, rounded up |
| SessionMemory.EstimateIsAlmostAdditive | wr-proxy/session_memory.go:95-106 | estimating two texts apart costs at most one token more than together |
| Recalling.EstimateCounts | wr-proxy/session_memory.go:95-122 | the estimate in terms of how many characters lie in the four ranges |
| SessionMemory.SelectTurns | wr-proxy/session_memory.go:251-265 | the loop from the newest turn finds the longest suffix that fits the budget |
| SessionMemory.RecalledTextFits | wr-proxy/session_memory.go:251-265 | the recalled text as a whole fits the budget too |
| Recalling.FilledToTheBudget | wr-proxy/session_memory.go:251-265 | the estimates of the chosen turns add up to no more than the budget, and with one turn more they would |
| SessionMemory.InjectSessionMemory | wr-proxy/session_memory.go:230-321 | the request with exactly that suffix inserted, or unchanged without a session, when it cannot be loaded, when nothing fits or there is no message list |
| SessionMemory.InjectionKeepsMessages | wr-proxy/session_memory.go:281-303 | own messages keep their order, recalled ones are the chosen turns in stored order |
| Recalling.TurnsAreInserted | wr-proxy/session_memory.go:281-303 | the messages with the turns, as role, content and mark, behind a leading system message or in front; every other field as it was |
| Recalling.NothingToInsert | wr-proxy/session_memory.go:266-279 | without a turn that fits or a list of messages the request stays as it is |
| SessionMemory.ExtractLastUserMessage | wr-proxy/session_memory.go:381-421 | the text of the last user message that was not recalled, parts of multimodal content on lines of their own |
| Recalling.LastOwnIsExtracted | wr-proxy/session_memory.go:381-421 | the text of the last message of the user that was not recalled, its string or the texts of its parts |
| Recalling.LinesInOrder | wr-proxy/session_memory.go:399-415 | every part with a text gives it a line, whatever its type, in order |
| SessionMemory.InjectionIsInvisible | wr-proxy/session_memory.go:379-421 | the message extracted for storing is the same before and after injection |
| SessionStorage.SessionStore.NextTurnIndex | wr-proxy/session_memory.go:465-476 | one more than the highest index of the session, 0 if it has none |
| SessionStorage.SessionStore.SaveSessionTurn | wr-proxy/session_memory.go:443-463 | the table after storing an exchange, when either insert may fail |
| SessionStorage.SaveLoads | wr-proxy/session_memory.go:443-463 | an exchange is added to its own session and to no other |
| Recalling.StoresExactly | wr-proxy/session_memory.go:349-372 | an exchange is stored if it has a session, a reply and a message of the user, both shortened to ten thousand characters |
| Recalling.ExchangeIsStored | wr-proxy/session_memory.go:443-476 | the session then ends with the user's turn and the answer under the next two numbers, or as much of it as the database took |
| SessionStorage.PurgeLoads | wr-proxy/session_memory.go:479-507 | clean-up removes expired sessions whole and leaves the others as they are |
| TurnNumbers.UninterruptedIsSave | wr-proxy/session_memory.go:443-463 | with nothing in between, the three statements of the worker store an exchange as one call does |
| TurnNumbers.TurnsStayNumbered | wr-proxy/session_memory.go:423-507 | over every interleaving of index reads, inserts, failures, dropped exchanges and clean-ups, the turns of a session are consecutive, and numbered 0, 1, 2, ... if and only if its last clean-up did not come between an index read above 0 and an insert that worked |
| TurnNumbers.CleanUpOvertakes | wr-proxy/session_memory.go:443-476 | a run in which the clean-up overtakes an insert and a session starts at turn 2 |
| TurnNumbers.TurnsAlternate | wr-proxy/session_memory.go:443-463 | over every such run that leaves no exchange by half, user and assistant take turns, overtaken or not |
| SessionStorage.RecallLeavesNoTrace | wr-proxy/session_memory.go:349-463 | over every run of recalls from however old a table, exchanges taken in any order, single inserts, dropped exchanges and clean-ups, the table ends up as if nothing had ever been recalled |
| Sanitizer.Request.ValidateRequiredFields | wr-proxy/sanitizer.go:84-113 | the first missing or malformed required field decides the reason |
| Sanitizer.Request.RepairMessage | wr-proxy/sanitizer.go:126-175 | role inferred, content and call identifier filled in; reported exactly when the message changed |
| Sanitizer.Request.RepairMessages | wr-proxy/sanitizer.go:126-180 | the loop repairs every message and reports exactly whether one changed |
| Sanitizer.Request.SanitizeMessages | wr-proxy/sanitizer.go:116-189 | every message repaired in place, and the request marked modified exactly when one changed |
| Sanitizer.Request.SanitizeToolFields | wr-proxy/sanitizer.go:224-255 | tool fields removed and reported in order for a provider without tools, messages cleaned only if one was there |
| Sanitizer.Request.SanitizeToolMessages | wr-proxy/sanitizer.go:262-320 | tool results dropped, calls taken off assistant messages, both counted; an emptied list is written as null |
| Sanitizer.SanitizeRequest | wr-proxy/sanitizer.go:34-81 | the result of one pass for every endpoint, provider and body, malformed ones included |
| Cleaning.FilledIsRepaired | wr-proxy/sanitizer.go:126-219 | the role, content and call identifier of a repaired message in every case, and no other field touched |
| Cleaning.OthersAreKept | wr-proxy/sanitizer.go:34-81 | a provider with tools gets every message repaired and every other field as it was; the fault of a request that is turned away |
| Cleaning.ToolsAreTakenOut | wr-proxy/sanitizer.go:224-320 | a provider without tools gets none of the five tool fields, and if there was one, exactly the messages that are no tool results, in order, repaired and without calls |
| Cleaning.ReportTells | wr-proxy/sanitizer.go:231-315 | what is reported: the tool fields that were there, in order, and how many messages were dropped or lost their calls |
| Cleaning.OtherBodies | wr-proxy/sanitizer.go:34-54 | other endpoints, texts that are no JSON, values that are no object, and `null` |
| Sanitizer.HasToolCallRequest | wr-proxy/sanitizer.go:358-387 | true if and only if a detected field, a call or a tool result is present |
| Cleaning.DetectedExactly | wr-proxy/sanitizer.go:358-387 | a tool request is one with one of four fields, a message with calls, or a message of role tool or function |
| Sanitizer.FillSettles | wr-proxy/sanitizer.go:116-219 | which client messages will be taken for tool results, and that filling is complete after one round |
| Sanitizer.Survivors | wr-proxy/sanitizer.go:274-310 | the messages that are not dropped, all of them and in order |
| Sanitizer.NonToolMessagesStay | wr-proxy/sanitizer.go:262-320 | exactly the messages that are no tool results reach the provider, in order, otherwise as they were |
| Sanitizer.StrippingIsComplete | wr-proxy/sanitizer.go:224-320 | when a cleaned valid request is still detected as a tool request, as an if and only if on the client's request |
| Sanitizer.ProviderSeesNoTools | wr-proxy/sanitizer.go:221-255 | a valid request with a tool field and calls only on assistant or role-less messages is detected no more |
| Sanitizer.SecondPassChangesNothing | wr-proxy/sanitizer.go:34-81 | a second pass never modifies anything, and accepts what the first did unless stripping emptied it |
| Sanitizer.ToolResultSlipsThrough | wr-proxy/sanitizer.go:243-254 | a tool message without a tool field at the top passes untouched |
| Providers.Info.QuotaRatio | wr-proxy/models.go:230-239 | never negative, at most 1 for a non-negative use, and 0 exactly when a known quota is used up |
| Providers.Provider.SetModelCooldown | wr-proxy/models.go:98-108 | unavailable for that model until then, availability for every other model unchanged |
| Providers.Provider.SetAuthFailBackoff | wr-proxy/models.go:159-175 | the delay is the geometric one, or the maximum once a step overshot it, and the provider is unavailable until it is over |
| Providers.GrowingBackoff | wr-proxy/models.go:165-172 | for a multiplier of at least one, the delay after n failures is the smaller of the geometric one and the maximum |
| Choosing.NextDelay | wr-proxy/models.go:159-175 | the first delay is the base, each further one the last times the multiplier up to the maximum |
| Providers.Provider.ClearAuthFail | wr-proxy/models.go:178-181 | past refusals keep the provider from nothing: for every model and time it is available exactly if it can serve, and the delay after the next refusal is the base again |
| Providers.Provider.RecordHealth | wr-proxy/health.go:78-87 | after a healthy check the provider is available for all it can serve and its record is clean; after any other the record stays |
| Routing.WeightedPick | wr-proxy/router.go:322-339 | for positive weights, the slot the draw falls into; the first item when the total is not positive |
| Routing.WeightsAreExact | wr-proxy/router.go:322-339 | exactly `weights[i]` of the draws select slot `i`, and no draw selects two |
| Routing.SmartIsWeakOrder | wr-proxy/router.go:235-246 | the comparison of the smart strategy is a strict weak order |
| Choosing.SmartPrefers | wr-proxy/router.go:235-246 | more than half of the quota left comes before less, and otherwise the lower latency |
| Routing.SortStable | wr-proxy/router.go:235-246 | the sorted group is a ranking: each place once, better first, ties by place |
| Routing.PositionIsRank | wr-proxy/router.go:235-246 | exactly k others come before the one at position k, so the ranking is unique |
| Routing.SelectWeightedRandom | wr-proxy/router.go:279-292 | the provider whose share of the weights the draw falls into, weights below 1 counting as 1 |
| Routing.SelectSmart | wr-proxy/router.go:230-254 | a draw of 100 : 70 : 40 among the best three of the ranking |
| Routing.SmartTakesOneOfThree | wr-proxy/router.go:230-254 | fewer than three others come before the chosen provider |
| Routing.FirstBy | wr-proxy/router.go:257-303 | a provider with the least key; which one among ties is left open |
| Routing.SelectBy | wr-proxy/router.go:190-205 | each strategy takes what it may |
| Choosing.StrategyTells | wr-proxy/router.go:190-303 | least latency, least cost, highest priority, a share by weight, or a share of 100, 70 and 40 among the best three |
| Routing.GroupByPriority | wr-proxy/router.go:307-319 | the three priority groups, each in order |
| Choosing.GroupsInOrder | wr-proxy/router.go:307-319 | the groups are the providers with priority of 90 and more, from 50 to 89, and below, each once and in the order of the list |
| Routing.TopGroupIsHighest | wr-proxy/router.go:187-225 | the group chosen from is the highest that has a candidate, and holds all of that level |
| Choosing.TopIsHighest | wr-proxy/router.go:187-225 | priorities of 90 and more come before those of 50 and more, and these before the rest; the group holds all of its range |
| Router.Router.GetStickyProvider | wr-proxy/router.go:57-81 | the bound candidate if the binding holds; a binding that ran out is removed, one that holds is not renewed |
| Router.Router.SetStickyProvider | wr-proxy/router.go:84-95 | the session is bound up to ten minutes from now and no longer |
| Router.Router.ClearExpiredSticky | wr-proxy/router.go:98-107 | exactly the bindings that ran out are removed |
| Router.Router.RefreshProviders | wr-proxy/router.go:110-126 | a reload carries refusals over by ID and leaves cool-downs as loaded |
| Router.Router.FilterProviders | wr-proxy/router.go:152-174 | the candidates in the order of the providers |
| Router.Router.SelectProviderWithFormat | wr-proxy/router.go:147-213 | filtering, stickiness, top group, strategy and binding together; the choice meets every condition of a provider that may serve, each written out, and there is one if any provider meets them |
| Router.Router.SelectAmong | wr-proxy/router.go:176-213 | the steps after filtering |
| Router.CandidatesExactly | wr-proxy/router.go:152-174 | the candidates are exactly the providers that pass every filter |
| Router.CandidateMayServe | wr-proxy/router.go:152-174 | passing the filters is being on, not dead or disabled, not cooling or backing off, serving the model, allowed to the token, not tried before, with quota above the critical share and of the format asked for |
| Router.ServingExactly | wr-proxy/router.go:152-174 | the candidates are exactly the providers that meet these conditions |
| Choosing.CandidatesInOrder | wr-proxy/router.go:152-174 | each of them once, in the order of the list |
| Choosing.SelectionTells | wr-proxy/router.go:176-213 | a session keeps a provider that is still a candidate for ten minutes from the choice; otherwise the strategy takes one from the top group, and the session is bound to it |
| Router.SelectionIsACandidate | wr-proxy/router.go:147-213 | the choice is always a candidate, and there is one unless there is no candidate |
| Router.StickyOverRuns | wr-proxy/router.go:57-95 | over every run within the time-to-live, all selections of a session return its provider if and only if it was a candidate each time |
| Failover.Gateway.RetryLoop | wr-proxy/handlers.go:382-407 | retries with the same body until one is fine or the limits are reached, closing every body but the one served |
| Failover.ForwardedExactly | wr-proxy/proxy.go:98-357 | forwarding returns exactly these replies for all upstream behaviour, and none of them is taken for truncated |
| Attempts.ForwardTells | wr-proxy/proxy.go:98-357 | the status, the error and the kind of every reply in terms of what happened on the wire |
| Failover.Gateway.RetryEnlarged | wr-proxy/handlers.go:324-349 | one more call with the enlarged request, served exactly if it is complete and without error |
| Failover.Gateway.SetAside | wr-proxy/handlers.go:353-379 | cool-down, back-off or neither, as the kind of failure says |
| Attempts.PutAside | wr-proxy/handlers.go:353-379 | half an hour for a used-up quota, a mark for a refusal, the time asked for up to two hours for a long limit, and nothing for any other failure |
| Failover.Gateway.Try | wr-proxy/handlers.go:305-418 | one attempt is legal, closes its bodies, and sets the provider aside exactly as its first reply says |
| Failover.Gateway.Select | wr-proxy/handlers.go:244-251 | never an excluded provider; one of the preferred protocol if any can serve; none only if no provider can |
| Failover.Gateway.First | wr-proxy/handlers.go:256-263 | the suggested provider, replaced only by one of the preferred protocol that it lacks, and replaced if there is a candidate of that protocol |
| Failover.Gateway.Choose | wr-proxy/handlers.go:254-283 | never an excluded provider; one that is permitted and, at that time, ready, or the suggested one; the one the session has, if it may serve; none only if no provider may serve |
| Failover.Gateway.Turn | wr-proxy/handlers.go:253-418 | one turn of the loop: an answer, or one more attempt that gave up, at a provider not tried before |
| Failover.Gateway.FailOver | wr-proxy/handlers.go:253-493 | every run is a legal outcome: bounded attempts, distinct providers, one answer; and 503 only when no provider may serve |
| Failover.Gateway.HandleProxy | wr-proxy/handlers.go:227-493 | the same for a whole request; every attempt is at a provider that is on, serves the model, is allowed to the token and not short of quota, but for a first one at the provider suggested; a session that still has its provider is tried there first |
| Failover.CallsPerAttempt | wr-proxy/handlers.go:305-412 | at most 1 + min(provider retries, retry limit) upstream calls in an attempt, all with the cleaned request; one more at most if replies could be truncated |
| Attempts.AskedAgain | wr-proxy/retry.go:467-491 | a provider is asked again at once only after a timeout, a limit of at most a minute or a truncation, and then until a good reply comes or one of the two limits is reached |
| Attempts.GoodIsServed | wr-proxy/retry.go:404-453 | what is handed over is a reply below 400 without error, and no call is made after one |
| Failover.CallsPerRequest | wr-proxy/handlers.go:253-478 | the calls of a whole request are bounded by the two limits together |
| Failover.ServedReplies | wr-proxy/handlers.go:310-350 | every served reply is complete and without error, and fine altogether |
| Failover.FailureStatus | wr-proxy/handlers.go:480-493 | the status of the final error is below 400 exactly when the last provider first sent an error text under status 200 |
| Failover.WhenToolsReachTheProvider | wr-proxy/handlers.go:287-310 | a call shows a tool request to a provider without tools exactly when the request escapes stripping |
| Failover.NothingLeaks | wr-proxy/handlers.go:319-406 | every response body opened is closed, but for the one the answer is made of |

## Left out

- `backend/` and the browser code: database forms, pages and mail.
- Embedding, rerank, Cohere and MCP endpoints, knowledge capture, alerts, audit logs, metering and configuration loading.
- HTTP itself: headers, gzip, flushing, and clients that disconnect.
- JSON bytes: duplicate and case-insensitive keys, number spelling, invalid UTF-8, decode errors of whole requests and responses, and fields copied unread (identifiers, model names, creation times, sampling parameters).
- Tool calls in OpenAI-to-Anthropic responses are dropped by the code; only text, stop reason and usage are modelled there.
- 64-bit overflow of quotas and counters, and rounding of floating-point numbers: integers are unbounded and ratios, delays and rates are reals.
- Bytes and runes: a text is a sequence of characters, so the cut of a stored message at 10000 bytes (mcp_tools.go:566-574) is a cut at 10000 characters.
- Regular expressions: a rule is a function from a text to its matches, which need not even occur in it; a rule that is disabled or does not compile is one that finds nothing.
- Replace.ReplacePlaceholder: an empty placeholder in a text that is not empty is outside the contract because the loop does not end, which Replace.ScanEnds proves.
- EncodedBodies.RestoreInvertsBody: the encoder is any that escapes character by character. Markers whose category needs escaping, and markers split across stream chunks, are not restored by the code.
- Quota.DatabaseTracksMemory: admin edits to the stored use, and tokens created after start-up, are outside the cache and the model.
- Sanitizer.SanitizeRequest: the warnings, and the checks that only warn, because nothing depends on them; the keyword list for system prompts is a parameter.
- SessionMemory.InjectSessionMemory: detecting that a recall was asked for, because it is a table of phrases; a request that decoded from JSON is taken to encode again.
- TurnNumbers.TurnsStayNumbered: rows are loaded in the order they were stored, which is the order of their indices because these are proved consecutive; which sessions a clean-up removes is open, so the retention period is not modelled.
- Providers.Provider.RecordHealth: the last latency and the last error are not updated; the latency a strategy compares is the one loaded.
- Routing.FirstBy: the library's sort is not stable, so which of several least providers comes first is left open.
- Router.StickyOverRuns: a selection is one step. Between the lookup and the binding of one request another may bind or drop the same session, and an administrator may clear the map (handlers.go:880-884).
- Failover.Gateway.HandleProxy: limits are constant during a request, providers are not reloaded meanwhile, and the waits between retries, the request cache and the relaying of the response itself are not modelled.
- Failover.Judge: the reason text is reduced to fine, truncated or failed; error patterns and the parsing of waiting times are part of a reply.
- Predictor: trend, confidence and alert levels are tables of thresholds; the trend divides by a mean that may be zero.
