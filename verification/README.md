# Verified model of the chat protocol proxy

The proxy answers Anthropic Messages and OpenAI Responses requests from an upstream that only speaks OpenAI
chat completions. What is hard about it is a set of state machines driven by whatever an upstream sends: a
streaming converter with retries, three text parsers that hold back what may become a tag, a request converter
that has to keep tool calls and their results together, an item protocol, WebSocket framing, a pump between
two goroutines. This project models those machines in Dafny, branch by branch, and proves what every step
and every run of them keeps.

`dafny verify dfyconfig.toml` checks the whole project.

## How it is built

| files | what they model |
|---|---|
| `Events`, `Builder` | the events of one Anthropic message, a ledger that accepts or refuses them, and the builder with its content block manager |
| `ThinkTag`, `HeuristicTool`, `HeuristicLaws`, `HeuristicRoundTrip`, `Dsml` | the three streaming text parsers |
| `Upstream`, `TextFlow`, `PlainRun` | the upstream's chunks; the parsers and filters as one machine over values; what quiet text turns into |
| `ToolLog`, `Turn`, `Streamer` | the streaming converter: what fragments say about each call, what a turn is to do, and the converter itself |
| `Aggregate`, `Answer` | the non-streaming answer and the retry hooks of the route |
| `Chat`, `Convert`, `ConvertLaws`, `ConvertImages`, `TextPlaces`, `Evict` | Anthropic messages to chat messages, what the conversion keeps, where texts and images go out, and the cap on images |
| `Items`, `Shelf`, `Fragments`, `Translator`, `ChatBody` | the Responses item protocol and its ledger, what the translator has stored, which call is under way and which fragments come late, the translator, and the way back from items to chat messages |
| `Bytes`, `WebSocket` | RFC 6455 framing, sections 5.2 to 5.5 |
| `Pump`, `Ids`, `Merge` | the SSE pump as a transition system, UUID version 7 (RFC 9562 section 5.7), and the copy-on-write merge of configuration objects |
| `Strings`, `Sequences`, `Json`, `Wrappers` | shared vocabulary |

Objects whose fields the original updates are classes here, and their methods are proved against functions on
values; the properties are then lemmas about those functions. Two ledgers (`Events.Step`, `Items.Step`) say
independently of the converters which event may follow which. The classes carry a ghost trace of what they
emitted, and every method keeps the trace acceptable to the ledger, so each property of an accepted trace
(blocks numbered without a gap, each stopped once, deltas only into open blocks) holds of every run.

The text side of both converters is proved against one machine over values (`TextFlow.Play`): what came in
(reasoning, refusals, content, native calls, restarts, the end) determines a script (`TextFlow.ScriptOf` adds what
the think-tag parser makes of each content), and the script what the parsers hold and what has come out. Every
method says which step of that machine it takes, so a whole run's text and reasoning are the machine's.

JSON text is an oracle with a round-trip law (`Json.Lawful`), signatures are a function parameter, fresh ids
come from a counter, and "●" is one character. Regular expressions are recursive recognisers.

## Main results

- **Streaming converter** (`Streamer.Translate`). For every chunk sequence, every option setting, every pair of
  retry hooks that keep their budgets and every point at which the consumer stops: the trace is accepted from
  the starting block index on, every started block is stopped when the run ends, no block starts while text or
  thinking is open, `message_delta` and `message_stop` come last and only after a graceful end, thinking signatures
  sign the text sent for their block, a turn that has reasoned shows a text or tool block, both guards terminate,
  and a consumer that leaves has got every event up to the first it refused.
- **What a turn says.** Text and reasoning are exactly what the parsers and filters make of what came in, defenses
  on or off, up to the one-space placeholder; calls found in the text are sent in order as whole blocks. What was
  read over all attempts is a recursive function of the upstream's streams (`Turn.Resumed` for connections that die,
  `Turn.Retried` for turns that stay invisible): the upstream is asked again exactly as these say, attempt by attempt,
  and they give the fragments, the error and the stop reason of the whole turn. What is heard of a stream is stated in
  the chunks' own terms (`Heard.StreamTakes`, `TurnHears`, `OutcomeHears`): up to its end every chunk's first delta
  counts, field by field and in order, whatever finish reason comes with it. In a turn without tags the reader gets all
  reasoning, all refusals and all content (`MixedRun.MixedInput`).
- **Argument fidelity.** A call whose name became known and never was "Task" has had exactly its argument fragments
  sent, in order, into a block of its own that was started with its first name; a call never named anything but
  "Task" got one delta if it had arguments, its parsed arguments forced into the foreground, or "{}" when they never
  parse. A call that was "Task" for a while and something else before or after has the Task's arguments as one delta
  in their place, or "{}" at the end (`ToolLog.JoinsExactly`). A nameless call took the name of the request's tool
  of its index, or has no block.
- **Ids.** While defending every id of a native call is the proxy's own, and no two calls of a turn share one, native
  or found in the text, if random numbers differ and none begins like the other kind of id.
- **Chunk independence.** The think-tag parser equals a one-shot scan for every split; the DSML filter on
  marker-free text equals dropping one trailing fragment; quiet content through a whole converter (`PlainRun.PlainInput`,
  used by both) reads as the two sides of the one-shot scan, with defenses less an unfinished marker at the end.
- **Heuristic tool calls.** Printing and parsing calls is a round trip exactly for the cuts that do not put the
  bullet of a later call and a closed parameter behind it into one chunk, and do not end inside a parameter where
  the parser cannot tell that it goes on. What a flush loses is known exactly. Inline web calls are found exactly where
  one of the two names stands as a word of its own and the braces closest to it hold an object with the tool's field,
  for any number of them in one text (`HeuristicWeb.WebCallsAre`, `FeedFinds`, `OneMention`).
- **Aggregation agrees with streaming**, entry by entry and argument by argument (`Aggregate.EntriesTell`).
- **Request conversion** keeps every tool call, every tool result and every deferred block once and in order,
  and keeps results next to their calls when the input is well paired. What the messages say is stated over the blocks:
  the texts of every assistant turn go out once and in order, scrubbed of the client's markers and of nothing else
  (`ConvertTexts.ConversationSays`, `ScrubKeeps`), results line by line, and the other turns as they are.
  At most the configured number of images goes out, unless a tool result counts for fewer images than it has (see below).
- **Responses** (`Translator.Respond`): the item protocol on every run, exact text, reasoning and status. The calls
  stored are the native calls with a name, one item each, and the calls found in the text in their order; ids are
  distinct; while defending call ids are the proxy's own, and distinct too. An item holds all fragments of its call
  but the late ones, those that come when the call is under way no more (`Fragments.Watch` says which, from what
  came in); no delta reaches a finished item if and only if every item holds all arguments. The inverse direction
  keeps calls, outputs and what was said in their joint order; each assistant message's content and reasoning are those
  of the items between two boundaries (`ChatTexts.AssistantTells`), and a finished response fed back is one assistant
  message with exactly its calls, texts and reasoning. What the translator takes in is stated over the chunks
  (`TakenIn.AllTaken`).
- **WebSocket**: reading inverts every legal masked encoding and every legal fragmentation, and accepts nothing else:
  bytes are a frame if and only if they begin with a legal encoding, a broken frame is refused for the first rule it
  breaks, and every input is pending frames followed by one that ends the read, or by bytes that are no frame
  (`WebSocketLaws.EveryRead`, `ReadEnds`, `ReadBreaks`).
- **Pump**: every interleaving writes a prefix, dumps once, and never gets stuck; a run whose client was not seen to
  leave has written everything if and only if the pump never gave up.
- **Merge**: for every visiting order, deleted paths are absent and default paths present; the source's values win, the
  target's stay where the source is silent, defaults fill what neither has, and nothing else appears (`MergeValues`).
  Nothing that existed before is written to.

## Where the code does not do what its comments say

- A later bullet and a closed parameter in one chunk: the parser takes closed parameters before it looks for
  the bullet that ends a call (`internal/parsers/heuristictool.go:199-235`), so the later call is swallowed. And a
  chunk that ends inside a parameter loses it when a bullet in its key or value has come, or when its key ends in
  "</parameter" and its '>' has: that looks closed. `HeuristicRoundTrip.RoundTrip` gives the exact condition for
  whole documents, `OneCut` for one parameter, and `OneChunkSwallows`, `BulletLost` and `TrickyLost` inputs that
  fail it. One cut of the second kind does no harm, right before the last closing mark of the document. Where a
  value under such a key holds a parameter tag or a bullet, other cuts may come back by accident
  (`AccidentComesBack`). Names may hold anything but '>'.
- A flush loses text inside a call unless it is one open parameter (`HeuristicLaws.FlushLoses`), even under a good
  name (`HeuristicRoundTrip.FlushDropsMarkup`). A blank function name leaves the parser inside the call for good:
  the call and all later ones are lost (`HeuristicLaws.BlankLosesCalls`, `HeuristicRoundTrip.BlankName`).
- A call found in text does not count as an emitted tool block (`internal/sse/builder.go:576-583` looks at native
  calls only), so the mid-stream retry and the invisible-turn guard can still fire after one, unlike the
  comment at `internal/stream/stream.go:357-364` says.
- Argument fragments held for a nameless call survive a mid-stream retry, and a second attempt at an invisible
  turn, and are joined with those of the next stream; the fidelity result is about all fragments kept, in that order.
- Nameless calls are named or dropped before an invisible turn is tried again (`internal/stream/stream.go:660-708`), so
  one that comes with a further attempt has no block, and the stop reason knows only of calls dropped before.
- Images of a user turn pull the last text-only message behind tool messages that lie in between
  (`internal/convert/converter.go:595-613`; the comment says they are not merged then): `ConvertImages.TextStaysPut`
  is about one step, `TextPlaces.TextsPlaced` says of every turn where each text goes out, `TextPlaces.TextsStay` when
  none moves, `TextPulled` is a turn where one does.
- The deltas of a call do not always join to its arguments (the comment at `internal/sse/nonstream.go:83-85` says they
  do): a call named "Task" and, by a later fragment, "TaskOutput" loses what it got as a Task and did not parse
  (`ToolLog.TaskOutputLoses`). `ToolLog.JoinsExactly` is the exact condition for every call that has a name.
- Documents are dropped while deferred blocks wait. `ConvertImages.NothingDropped` says exactly when an image is lost
  that way, `ConvertImages.ConvertedImages` that none is lost otherwise, `DocumentLost` is a conversation that loses one.
- A tool result with a base64 image `source` of its own counts as one image for the cap, however many its
  content holds (`internal/convert/evict.go:66-75`). `Evict.CapIsExact`: a conversation of one block breaks the cap
  if and only if the block is such a result with several images; `Evict.ConvertCapped`: without such results no
  conversation does, and exactly when one does with them; `Evict.SourceBreaksCap` is an instance.
- Argument deltas of the Responses stream can reach a finished item, whose stored arguments then lack them
  (`internal/responses/stream.go:180-187`): `Fragments.InterleavedIsLate` is an input, `Translator.Respond` counts them exactly, and
  `Fragments.StrictIsNeverLate` proves what the source counts on, that an upstream which streams its calls one index
  after the other causes none.
- Text and reasoning are accumulated over the whole response and never reset (`internal/responses/stream.go:358-385`,
  `457-490`), so a second message item holds the text of the first once more: `Items.ItemsRepeat` says exactly when
  the stored items together are what was streamed.
- The pump's closed channel can win over the client's leaving, so a dump marked completed may lack events:
  `Pump.CompletedIsNoPromise` is a run, `Pump.DeliveredUnlessGivenUp` the exact condition.

## Model

| member | source | states |
|---|---|---|
| `ThinkTag.ThinkTagParser.Feed` | internal/parsers/thinktag.go:48-66 | the chunks passed on and what is still held are a function of what was held and what came, and owe exactly what the one-shot scan of everything fed so far owes, for any further input; what is held is nothing or a proper tag prefix, and a suffix of the input; the loop terminates |
| `ThinkTag.ThinkTagParser.ParseOutsideThink` | internal/parsers/thinktag.go:69-117 | one step outside a tag: an orphan close is dropped, an open tag switches, a possible tag start is held; either the buffer shrinks or it is a held fragment |
| `ThinkTag.ThinkTagParser.ParseInsideThink` | internal/parsers/thinktag.go:122-153 | one step inside a tag, with the same debt to the scan |
| `ThinkTag.ThinkTagParser.Flush` | internal/parsers/thinktag.go:158-169 | the held fragment comes out as text of the current mode, as the scan would read it |
| `ThinkTag.ParsedOwes` | internal/parsers/thinktag.go:48-153 | the chunks of one feed, as a function of what was held and what came, are what the one-shot scan owes for any further input |
| `ThinkTag.ParsePieces` | internal/parsers/thinktag.go:48-169 | for every split, feeding the pieces and flushing gives the scan of the whole text |
| `Dsml.DSMLFilter.Feed` | internal/parsers/dsml.go:58-83 | emitted and held text add up to the stripped buffer; what is held is the part that may still become a marker |
| `Dsml.DSMLFilter.Flush` | internal/parsers/dsml.go:87-95 | what is held is stripped, and an unfinished marker at its end is dropped |
| `Dsml.FilterPieces` | internal/parsers/dsml.go:18-95 | on text without a complete marker the output is the text minus one trailing fragment, identically for every split |
| `Dsml.HeldStep` | internal/parsers/dsml.go:58-83 | what is held after one more piece depends only on what was held and the piece |
| `HeuristicTool.HeuristicToolParser.Feed` | internal/parsers/heuristictool.go:154-246 | state, text and calls after a feed are those of the parser's automaton run to its end on the cleaned buffer, web calls first (HeuristicWeb.FeedFinds says which); the loop terminates by buffer length and mode |
| `HeuristicTool.HeuristicToolParser.FromText` | internal/parsers/heuristictool.go:165-181 | text up to a bullet or a possible control token goes out, the rest waits |
| `HeuristicTool.HeuristicToolParser.FromMatching` | internal/parsers/heuristictool.go:182-201 | a header within 100 characters of the bullet enters the call, a longer stretch loses its bullet to the text |
| `HeuristicTool.HeuristicToolParser.CollectParameters` | internal/parsers/heuristictool.go:206-217 | closed parameters are taken off in order, what lies between them is text |
| `HeuristicTool.HeuristicToolParser.FromParameters` | internal/parsers/heuristictool.go:203-243 | a bullet or trailing text ends the call, anything that may be a parameter waits |
| `HeuristicTool.HeuristicToolParser.Flush` | internal/parsers/heuristictool.go:267-294 | an open call is completed with an unterminated last parameter, buffered text comes out |
| `HeuristicWeb.EveryText` | internal/parsers/heuristictool.go:86-117 | every text has its list of mentions of the two web tools: each the first name on word boundaries behind the one before, up to the closest braces |
| `HeuristicWeb.WebCallsAre` | internal/parsers/heuristictool.go:86-117 | the calls found are, in order, those of the mentions whose braces hold an object with the tool's own field: "url" for WebFetch, "query" for WebSearch, under any other spelling of the name no field at all |
| `HeuristicWeb.FeedFinds` | internal/parsers/heuristictool.go:154-163 | a feed makes these calls, numbered in order; with one of them the whole buffer is gone, with none it goes on as text |
| `HeuristicWeb.TextWaits` | internal/parsers/heuristictool.go:154-181 | text without bullet or control token in a new parser's buffer waits there unchanged |
| `HeuristicWeb.OneMention` | internal/parsers/heuristictool.go:86-117 | a name, something without braces, and braces: one call with the decoded object and no text if and only if it decodes and has the tool's field, otherwise no call and the text waits |
| `HeuristicLaws.StripsTokens` | internal/parsers/heuristictool.go:154-159 | which control tokens are taken out of the buffer, and that nothing else is |
| `HeuristicRoundTrip.RoundTrip` | internal/parsers/heuristictool.go:154-294 | text and printed calls, with any names, keys and values the syntax allows, come back as themselves when no chunk brings the bullet of a later call and a closed parameter behind it, and none ends inside a parameter behind a bullet or behind the '>' of a key that ends like a closing mark; and only then, unless a value under such a key holds a bullet or a parameter tag |
| `HeuristicRoundTrip.OneChunkSwallows` | internal/parsers/heuristictool.go:203-243 | two printed calls in one chunk do not come back once the second has a parameter: its bullet comes out as text |
| `HeuristicRoundTrip.OneCut` | internal/parsers/heuristictool.go:206-243 | one parameter cut once: it comes back if and only if it was open there, or nothing but its closing mark was missing and its key had made one |
| `HeuristicRoundTrip.BulletLost` | internal/parsers/heuristictool.go:219-225 | a bullet in a key or a value, and a chunk that ends behind it: the parameter does not come back |
| `HeuristicRoundTrip.TrickyLost` | internal/parsers/heuristictool.go:206-217 | a key that ends like a closing mark, cut in its value: half the value is taken for all of it |
| `HeuristicRoundTrip.AccidentComesBack` | internal/parsers/heuristictool.go:206-217 | why a value under such a key must not hold a parameter tag: a document read as other parameters than were printed, that make the same record |
| `HeuristicRoundTrip.FlushDropsMarkup` | internal/parsers/heuristictool.go:226-243 | markup behind the header of a call with a good name is dropped by the flush |
| `HeuristicRoundTrip.BlankName` | internal/parsers/heuristictool.go:233-240 | behind a blank name text comes back and later calls do not |
| `HeuristicRoundTrip.SingleCall` | internal/parsers/heuristictool.go:154-294 | a document with at most one call, whatever its name, comes back under every split when its parameters hold no bullet and no key ends like a closing mark |
| `HeuristicLaws.Passthrough` | internal/parsers/heuristictool.go:154-294 | input without headers, control tokens and web tool names comes out unchanged under every interleaving of feeds and flushes, and no call is made up |
| `HeuristicLaws.FlushLoses` | internal/parsers/heuristictool.go:267-294 | a flush loses text if and only if a call is being read and what is buffered is neither nothing nor one open parameter, or the call's name is blank |
| `HeuristicLaws.BlankLosesCalls` | internal/parsers/heuristictool.go:233-240 | a call with a blank name is lost, and so is every call after it |
| `HeuristicLaws.DriveNumbers` | internal/parsers/heuristictool.go:183-187 | no two calls have the same id, and the one being read has its own |
| `HeuristicLaws.DriveSuffix` | internal/parsers/heuristictool.go:165-243 | the automaton only ever drops from the front of its buffer |
| `Events.StartsConsecutive` | internal/sse/builder.go:462-466 | blocks of an accepted trace are numbered from the origin without a gap |
| `Events.DeltaHitsOpenBlock` | internal/sse/builder.go:193-218 | every delta lands in a block of its kind that was started and not yet stopped |
| `Events.StoppedOnce` | internal/sse/builder.go:213-218 | every started block is stopped once, unless it is still open |
| `Events.NeverBothOpen` | internal/sse/builder.go:311-334 | text and thinking blocks are never open together |
| `Events.StartsInTheClear` | internal/stream/stream.go:461-475 | a block, a call's among them, starts only when no text or thinking block is open |
| `Events.EndsOnce` | internal/sse/builder.go:124-155 | message_delta comes when every block is stopped, and only message_stop follows it |
| `Builder.Builder.constructor` | internal/sse/builder.go:60-73 | a new builder agrees with an empty trace |
| `Builder.Builder.SetNextIndex` | internal/sse/builder.go:514-516 | the first block index of the trace |
| `Builder.Builder.MessageStart` | internal/sse/builder.go:96-119 | opens the trace |
| `Builder.Builder.TextDelta` | internal/sse/builder.go:266-269 | one accepted text delta; the accumulator grows by it |
| `Builder.Builder.StartThinkingBlock` | internal/sse/builder.go:222-227 | a block under the next index, with its own signature text |
| `Builder.Builder.EmitThinkingDelta` | internal/sse/builder.go:231-235 | one accepted thinking delta; accumulator and signature text grow by it |
| `Builder.Builder.EmitSignatureDelta` | internal/sse/builder.go:241-243 | the signature signs exactly the thinking text the trace carries for the block |
| `Builder.Builder.StopThinkingBlock` | internal/sse/builder.go:246-249 | the open thinking block is stopped |
| `Builder.Builder.StartTextBlock` | internal/sse/builder.go:258-262 | a text block under the next index |
| `Builder.Builder.StopTextBlock` | internal/sse/builder.go:272-275 | the open text block is stopped |
| `Builder.Builder.EnsureThinkingBlock` | internal/sse/builder.go:311-320 | the stop of an open text block and the start of a thinking block, each when called for; afterwards a thinking block is open |
| `Builder.Builder.EnsureTextBlock` | internal/sse/builder.go:325-334 | the stop of an open thinking block, unsigned, and the start of a text block, each when called for; afterwards a text block is open |
| `Builder.Builder.CloseContentBlocks` | internal/sse/builder.go:338-347 | the stop of the open content block, a thinking block signed first; afterwards neither is open |
| `Builder.Builder.StartToolBlock` | internal/sse/builder.go:279-294 | a tool block under the next index, id and name belongs to the call, whose known name stays; only while no content block is open |
| `Builder.Builder.EmitToolDelta` | internal/sse/builder.go:298-302 | one accepted fragment for the call's block; the call's record grows by it |
| `Builder.Builder.CloseAllBlocks` | internal/sse/builder.go:351-360 | content first, then the started calls in insertion order; afterwards the trace has no open block, and every started call's record is what its block received |
| `Builder.Builder.RegisterToolName` | internal/sse/builder.go:541-553 | fragments of a name replace, repeat or extend what is known |
| `ToolNames.SentWhole` | internal/sse/builder.go:541-553 | a name that is sent whole, however often and whatever beginnings of it besides, is the call's name |
| `ToolNames.Pieces` | internal/sse/builder.go:541-553 | a name sent in pieces is put together if and only if no piece begins what came before it or begins with it |
| `Builder.Builder.BufferTaskArgs` | internal/sse/builder.go:559-573 | Task arguments are held until they parse and then come out once, in the foreground |
| `Builder.Builder.FlushTaskArgBuffers` | internal/sse/builder.go:589-617 | every held Task argument comes out once, in insertion order, and nothing is held any more |
| `Builder.FlushResultsOnce` | internal/sse/builder.go:589-617 | the flush lists every holding call, none twice |
| `Builder.Builder.SetStreamToolID` | internal/sse/builder.go:532-537 | the id of a call is set, other calls stay |
| `Builder.Builder.SetToolPreStartArgs` | internal/sse/builder.go:629-631 | arguments received before the block starts are kept |
| `Builder.Builder.DeleteToolState` | internal/sse/builder.go:635-646 | a nameless call is forgotten, in the map and in the order |
| `Builder.Builder.MessageDelta` | internal/sse/builder.go:124-150 | only after every block is stopped |
| `Builder.Builder.MessageStop` | internal/sse/builder.go:153-155 | closes the trace |
| `ToolLog.AdvanceTracks` | internal/stream/stream.go:809-903 | whatever fragment comes next for a call, its state keeps agreeing with all fragments received for it |
| `ToolLog.AllTrackNext` | internal/stream/stream.go:809-903 | the same for all calls at once: a fragment touches only its own call |
| `ToolLog.NamedNext` | internal/stream/stream.go:843-851 | the block of a call was started with the first name the call had, whatever its name grows to |
| `ToolLog.AdoptedAnswers` | internal/stream/stream.go:666-697 | a nameless call that takes a name from the request has its held arguments sent: repaired, or on the Task path |
| `ToolLog.FlushedIsDelivered` | internal/stream/stream.go:725-734 | sending the Task arguments that never parsed delivers every call: all its arguments, or the one delta of a Task |
| `ToolLog.TaskStaysForeground` | internal/sse/builder.go:559-614 | what a Task call sent reads back as one object that does not run in the background, or as an empty one |
| `ToolLog.PhasesJoin` | internal/stream/stream.go:809-903 | whatever names a call came under, its arguments are those it got ahead of being a Task, as a Task and after it, in this order; what went out for the Task's is a beginning of them, parsed |
| `ToolLog.JoinsExactly` | internal/stream/stream.go:809-903 | the deltas of a call that was a Task for a while join to its arguments if and only if it got none as a Task, or what went out for them is their own text (or they are one odd pair of braces that the "{}" at the end makes up for) |
| `ToolLog.TaskOutputLoses` | internal/stream/stream.go:853-903 | a call that is "Task" while its arguments do not parse and "TaskOutput" afterwards loses them, and has "{}" behind the others |
| `ToolLog.MintedNext` | internal/stream/stream.go:824-841 | whatever happens to one call, every id is still made from a random number no other call's id is made from |
| `ToolLog.MintedIDsDiffer` | internal/stream/stream.go:824-834 | no two calls of a turn share an id while defending |
| `TextFlow.PlaySnoc` | internal/stream/stream.go:379-477 | one more thing that comes in acts on what everything before it has led to |
| `TextFlow.HonestIsScript` | internal/stream/stream.go:443-458 | what came in decides what every parser made of it: there is one script for it |
| `TextFlow.CallsAreNumbered` | internal/parsers/heuristictool.go:183-187 | however a turn goes, retries included, no two calls found in its text have the same number |
| `PlainRun.PlainSteps` | internal/stream/stream.go:443-458 | however quiet content is cut: the think-tag parser owes the rest of the scan, the visible side is buffered whole, the other side is reasoned |
| `PlainRun.FinishSays` | internal/stream/stream.go:636-650 | at the end the buffered text goes out whole, a held tag fragment ahead of it; while defending without an unfinished marker |
| `PlainRun.PlainTurn` | internal/stream/stream.go:636-650 | once the turn is finished, text and reasoning are the two sides of the one-shot scan |
| `PlainRun.PlainInput` | internal/stream/stream.go:443-458 | the same of everything that came in, whatever the parser made of it on the way |
| `MixedRun.MixedTurn` | internal/stream/stream.go:427-476 | a turn of reasoning, refusals, content and native calls without tags: the reasoning is all reasoning in order, the text all refusals and content, the content of each stretch between calls behind the refusals up to its end; no call is made up |
| `MixedRun.MixedInput` | internal/stream/stream.go:427-476 | the same of everything that came in, whatever the parsers made of it on the way |
| `Turn.ReadGrows` | internal/stream/stream.go:482-493 | reading a stream on keeps every fragment and everything that came in before it |
| `Turn.ResumedEnds` | internal/stream/stream.go:339-373 | resuming a stream keeps what was read, and ends for good: by itself, with a native call under way, or refused by the hook |
| `Turn.AskedOnce` | internal/stream/stream.go:339-373 | a hook without a budget is never asked: what was read is the first stream |
| `Turn.AllResolved` | internal/stream/stream.go:660-704 | going through the calls in order answers every one of them, and finds a call to drop exactly when there is one |
| `Turn.SentMore` | internal/stream/stream.go:776-802 | calls found in the text stay sent, whatever is sent after them |
| `Turn.StillVisible` | internal/stream/stream.go:711-722 | a turn that can be seen stays so as events without reasoning are added |
| `Turn.KeptIsDelivered` | internal/stream/stream.go:843-903 | what is recorded of the calls is what the trace holds: a block each, under id and first name, with what was sent to it |
| `Turn.FoundIDsDiffer` | internal/stream/stream.go:776-802 | the ids of the calls found in the text differ, if random numbers do |
| `Heard.ChunkRises` | internal/stream/stream.go:427-476 | one chunk is heard as its reasoning, its refusal, its content and its calls, in this order |
| `Heard.StreamTakes` | internal/stream/stream.go:379-493 | of a stream is read, field by field and in order, what the first deltas of its chunks hold up to its end, whatever finish reason comes with them; the last finish reason counts, and the last chunk says how it ends |
| `Heard.TurnHears` | internal/stream/stream.go:339-373 | the same over all streams that were read on after the connection died |
| `Heard.OutcomeHears` | internal/stream/stream.go:596-625 | the same over the further attempts at an invisible turn, whose calls alone count then |
| `Heard.StopSequenceIsFirst` | internal/stream/stream.go:917-928 | the first of the request's stop sequences that is not empty and that the text ends with, if there is one |
| `Heard.StopReasonMeans` | internal/sse/errors.go:10-25 | which finish reason gives which stop reason |
| `Streamer.Streamer.Emit` | internal/stream/stream.go:304-312 | the consumer has every event up to the first it refuses, and none after it |
| `Streamer.Streamer.EmitVisibleText` | internal/stream/stream.go:223-235 | the text grows by what the filter lets through, or by all of it without defenses |
| `Streamer.Streamer.EmitReasoningDelta` | internal/stream/stream.go:239-253 | the reasoning grows by what the filter lets through; not at all when thinking is off |
| `Streamer.Streamer.FlushReasoningDSML` | internal/stream/stream.go:258-268 | reasoning held by the filter comes out, less an unfinished marker |
| `Streamer.Streamer.FlushContentDSML` | internal/stream/stream.go:271-279 | text held by the filter comes out, less an unfinished marker |
| `Streamer.Streamer.CloseContentBlocks` | internal/stream/stream.go:362-364 | the open content block is stopped, a thinking block signed first; nothing else is emitted |
| `Streamer.Streamer.IterHeuristicToolUseSse` | internal/stream/stream.go:776-802 | a call found in the text is one whole block under the next index, its input canonical and in the foreground for a Task |
| `Streamer.Streamer.BeginTool` | internal/stream/stream.go:843-869 | the block starts under its id and name, and what was held back is sent |
| `Streamer.Streamer.ProcessToolCall` | internal/stream/stream.go:809-903 | one fragment is appended to the log of fragments; the call's new state is what the fragment makes of the old one, and every call's state agrees with the log |
| `Streamer.Streamer.AdvanceCall` | internal/stream/stream.go:843-903 | block start, held-back arguments and the fragment's own arguments, for this call alone |
| `Streamer.Streamer.RegisterCall` | internal/stream/stream.go:824-836 | id and name of a fragment; the first id counts, and while defending it is replaced by a fresh one |
| `Streamer.Streamer.ProcessPart` | internal/stream/stream.go:444-457 | one piece of content: reasoning, or text and calls as the heuristic parser makes them |
| `Streamer.Streamer.ProcessContent` | internal/stream/stream.go:443-458 | content through both parsers: what is passed on and held owes the one-shot scan, and every part has been heard in order |
| `Streamer.Streamer.ProcessToolCalls` | internal/stream/stream.go:461-475 | what the heuristic parser holds goes out, content blocks close, and every fragment is processed in order |
| `Streamer.Streamer.ProcessDelta` | internal/stream/stream.go:427-476 | reasoning, then a refusal that supersedes the rest, or content and calls |
| `Streamer.Streamer.ProcessChunk` | internal/stream/stream.go:379-477 | one chunk as it is to be read: its fragments, what it is to the parsers, finish reason, errors and end marker (Heard.StreamTakes says in the chunks' own terms what is read) |
| `Streamer.Streamer.ConsumeSequence` | internal/stream/stream.go:482-493 | a sequence read up to its end marker or its first failure; less of it only if the consumer leaves |
| `Streamer.Streamer.Iterate` | internal/stream/stream.go:498-517 | ending without finish reason is a stall, unless the end marker was seen |
| `Streamer.Streamer.FlushParsers` | internal/stream/stream.go:636-650 | everything held goes out: the think-tag fragment first, then the filters and the heuristic parser |
| `Streamer.Streamer.MidStreamAbortGuard` | internal/stream/stream.go:339-373 | what has been read is the first stream, read on over every further stream the hook grants while the connection dies before a native call: fragments, finish reason and error included. Retries end within the hook's budget |
| `Streamer.Streamer.ContinueWith` | internal/stream/stream.go:357-371 | the next stream is read on from fresh parsers, with no content block open: fragments before it are kept, its own finish reason and error count |
| `Streamer.Streamer.ResetParsers` | internal/stream/stream.go:213-219 | fresh parsers; what came out has come out |
| `Streamer.Streamer.EmptyTurnGuard` | internal/stream/stream.go:596-623 | the upstream is asked again exactly when the turn is invisible and the hook grants it, attempt after attempt; what was read in the end, fragments and finish reason included, is a function of what the upstream sent |
| `Streamer.Streamer.RetryOn` | internal/stream/stream.go:596-623 | the second attempt and the later ones, until something is visible, a call has a name, a stream fails or the hook refuses |
| `Streamer.Streamer.ResolveOrphan` | internal/stream/stream.go:660-704 | one nameless call takes the name of the request's tool of its index, with its arguments, or is dropped; named calls are left alone |
| `Streamer.Streamer.ResolveOrphans` | internal/stream/stream.go:660-704 | every call is answered, and a call was dropped exactly when the request had no name for it |
| `Streamer.Streamer.EnsureVisible` | internal/stream/stream.go:711-722 | afterwards the turn has a block, and a text or tool block if it has reasoned; one space is added exactly when called for |
| `Streamer.Streamer.FlushTasks` | internal/stream/stream.go:725-734 | unfinished Task arguments go out once, with repair while defending |
| `Streamer.Streamer.CloseAllBlocks` | internal/stream/stream.go:736-739 | the open content block and every started call are stopped, in this order, and nothing is left open |
| `Streamer.Streamer.HandleError` | internal/stream/stream.go:522-564 | parsers are flushed, every block is stopped, the error is left for the route and no message_delta follows |
| `Streamer.Streamer.EndMessage` | internal/stream/stream.go:747-757 | message_delta with the stop sequence the text ends with, and message_stop |
| `Streamer.Streamer.Finalize` | internal/stream/stream.go:628-758 | the normal end: visible, every call delivered over all that was read, closed, with the stop reason the last finish reason and the calls dropped before any retry call for |
| `Streamer.Streamer.Run` | internal/stream/stream.go:295-331 | the whole run on the streamer's state, with what was read over all attempts |
| `Streamer.Translate` | internal/stream/stream.go:295-758 | every run: accepted trace, all blocks stopped, the exact text and reasoning; what was heard over all attempts is, field by field and in order, what the first deltas of the chunks of every stream hold up to its end, and decides text, reasoning, error, stop reason and the arguments each call is delivered with; text and reasoning of turns without tags as the chunks have them; ids of their own, for native calls and for calls found in the text, chunk independence, and the events a consumer that leaves has got |
| `Streamer.IDsOfTheirOwn` | internal/stream/stream.go:824-834 | while defending, no two calls with a block share an id, if random numbers differ |
| `Aggregate.AggregateMessage` | internal/sse/nonstream.go:25-133 | for every event sequence: one entry for each started block in index order, with its text, last signature, parsed arguments, and the last stop reason |
| `Aggregate.Agreement` | internal/sse/nonstream.go:25-133 | on an accepted trace: one entry per block of the started kind, texts and thinking concatenate to what was streamed, every started kind has an entry |
| `Aggregate.GatheredIsSent` | internal/sse/nonstream.go:64-83 | block by block in index order is the order in which text and reasoning were sent |
| `Aggregate.StartIsLast` | internal/sse/nonstream.go:25-133 | a block of an accepted trace is started once, so its entry has the id and name of that start |
| `Aggregate.EntriesTell` | internal/sse/nonstream.go:25-133 | on an accepted trace every started block has its entry: its text, its thinking and last signature, or its id, name and the arguments of all its fragments, an empty object when they do not parse |
| `Aggregate.StopTells` | internal/sse/nonstream.go:25-133 | stop reason and stop sequence are those of the one message_delta |
| `Answer.WriteNonStreamMessages` | internal/proxy/server.go:862-899 | the error the stream ends with, or a message that agrees with the stream, is never empty, never reasoning alone, and holds for each call its id, its first name and what was sent for it, parsed, over all attempts |
| `Answer.HooksKeepBudgets` | internal/proxy/server.go:389-393 | the route's two hooks keep the budgets the streamer relies on (the second at lines 498-502) |
| `Convert.ConvertAssistantMessage` | internal/convert/converter.go:374-435 | one assistant turn: scrubbed text, think tags, calls in order, replayed reasoning (ConvertTexts.MessageSays says what it reads) |
| `Convert.ConvertAssistantMessageWithSplit` | internal/convert/converter.go:446-491 | what precedes the first call, all calls at once, and what has to wait for which ids |
| `Convert.SerializeToolResultContent` | internal/convert/converter.go:220-253 | texts joined, images taken out, other elements as JSON |
| `Convert.ConvertUserMessage` | internal/convert/converter.go:571-704 | a user turn as the fold over its blocks |
| `Convert.FlushUserImages` | internal/convert/converter.go:583-607 | images go out with the last text-only user message, wherever it is |
| `Convert.ConvertUserMessageWithInjection` | internal/convert/converter.go:497-568 | an image is an error; results are crossed off and the deferred message follows the last one waited for |
| `Convert.BackfillReplayReasoning` | internal/convert/converter.go:275-288 | only tool turns without reasoning get the placeholder |
| `Convert.ConvertMessages` | internal/convert/converter.go:808-921 | the conversation as the fold over its turns, failing where the original fails (ConvertLaws.ConvertedKeeps and ConvertTexts.ConversationSays say what it keeps) |
| `ConvertTexts.ScrubKeeps` | internal/convert/converter.go:144-159 | text without the client's markers is left alone |
| `ConvertTexts.SignaturesGo` | internal/convert/converter.go:144-146 | up to the first signature comment everything stays, the comment goes, and so on behind it |
| `ConvertTexts.InterruptsGo` | internal/convert/converter.go:153-159 | likewise for the phrases of an interruption |
| `ConvertTexts.MessageSays` | internal/convert/converter.go:374-435 | a message made of blocks says their pieces in order, a blank line between two, and carries their reasoning as the replay mode has it |
| `ConvertTexts.PlainPieces` | internal/convert/converter.go:374-413 | with replay off and no markers the pieces are the texts as they are, and [Image] for images |
| `ConvertTexts.TurnSays` | internal/convert/converter.go:446-491 | for every assistant turn: what goes out at once says the blocks ahead of the first call, what waits those behind it that are no calls |
| `ConvertTexts.StringSays` | internal/convert/converter.go:808-921 | a turn that is no list of blocks is one message, an assistant's scrubbed and with its reasoning as the replay mode has it |
| `ConvertTexts.ConversationSays` | internal/convert/converter.go:808-921 | for every conversation that converts, the texts of its assistant messages are those of its assistant turns, each once, in order |
| `ConvertTexts.ResultSays` | internal/convert/converter.go:220-253 | the tool message of a result: its text line by line, a note when images follow elsewhere, a mark on an error |
| `ConvertTexts.PictureIs` | internal/convert/converter.go:731-805 | a picture is inline data of an image type, or a link, with its detail |
| `ConvertTexts.OthersKept` | internal/convert/converter.go:808-921 | what is not the assistant's is kept turn by turn and in order |
| `ConvertTexts.InjectedSay` | internal/convert/converter.go:497-568 | in a user turn that answers waited-for calls every stretch of text comes out once, in order |
| `ConvertTexts.MetaTurns` | internal/convert/converter.go:100-138 | a user turn is replaced if and only if its whole text, trimmed and in lower case, is one of the client's markers |
| `ConvertLaws.UserResults` | internal/convert/converter.go:571-704 | a user turn's tool results come out once each, in order, and it makes no calls |
| `ConvertLaws.InjectYields` | internal/convert/converter.go:497-568 | the deferred message is out exactly when no result is waited for any more |
| `ConvertLaws.TurnSettles` | internal/convert/converter.go:814-904 | each turn sends what waited, what it owes, or leaves it waiting; nothing else |
| `ConvertLaws.ConvertedKeeps` | internal/convert/converter.go:808-921 | for every conversation that converts: calls and results once each in order, and every assistant turn's message and deferred message once, in order, interleaved with the plain assistant turns |
| `ConvertLaws.InterleavedOnce` | internal/convert/converter.go:808-921 | an interleaving neither loses nor doubles a message |
| `ConvertLaws.ToolTurnsReason` | internal/convert/converter.go:275-288 | under reasoning_content replay every tool turn carries reasoning |
| `ConvertLaws.ToolAdjacency` | internal/convert/converter.go:446-568 | when every turn with calls is answered at once, each converted message with calls is followed at once by exactly its results |
| `ConvertLaws.InjectedLead` | internal/convert/converter.go:497-568 | leading results come out first, and nothing waits once all ids are answered |
| `ConvertImages.UserImages` | internal/convert/converter.go:571-704 | a user turn sends exactly the images it was given |
| `ConvertImages.ConvertedImages` | internal/convert/converter.go:808-921 | the images sent and the images dropped are the images given, each once; all are sent if and only if none is dropped |
| `ConvertImages.NothingDropped` | internal/convert/converter.go:497-568 | no image is dropped if and only if no turn brings one as a document while results are waited for |
| `ConvertImages.DocumentLost` | internal/convert/converter.go:497-568 | a conversation that loses an image |
| `ConvertImages.InjectHeeds` | internal/convert/converter.go:497-568 | while results are waited for everything but text and results is dropped, documents of any kind included |
| `ConvertImages.TextStaysPut` | internal/convert/converter.go:583-607 | the text images go out with ends up behind every tool message so far: the same as before if and only if none followed it |
| `ConvertImages.TextPulled` | internal/convert/converter.go:583-607 | text, a result, an image: the text goes out behind the result |
| `TextPlaces.TextsPlaced` | internal/convert/converter.go:571-704 | for every user turn: which texts go out alone and which with images, in order, and behind how many tool messages each |
| `TextPlaces.EverySeat` | internal/convert/converter.go:571-704 | each text of the turn goes out once, and its home is the number of results ahead of it in the turn |
| `TextPlaces.TextsStay` | internal/convert/converter.go:583-607 | no text of a turn goes out behind a result it was ahead of if and only if no images go out without text of their own while an earlier text is alone |
| `Evict.EnumerateImageRefs` | internal/convert/evict.go:55-92 | the references in document order |
| `Evict.ReplaceImageRef` | internal/convert/evict.go:97-123 | one block or element becomes text; nothing changes when the reference leads nowhere |
| `Evict.ReplaceFirst` | internal/convert/evict.go:55-123 | replacing the first image takes exactly it off the list and leaves every other where it was |
| `Evict.EvictOldImages` | internal/convert/evict.go:25-38 | the references left are the last `keep` of the original ones at unchanged places, everything else is untouched |
| `Evict.EvictedTells` | internal/convert/evict.go:83-116 | block by block: an evicted block is the notice, an evicted element of a tool result is the notice in its place, and nothing else has changed |
| `Evict.BlockBound` | internal/convert/evict.go:55-92 | a block sends no more images than it counts for, if and only if it is no tool result with an image source and several images |
| `Evict.ConvertedBound` | internal/convert/converter.go:571-704 | the conversion sends no more images than the references count |
| `Evict.ConvertedCount` | internal/convert/evict.go:55-92 | for every conversation: the images sent, those dropped and those that count and are not sent are the references and those that are sent and do not count |
| `Evict.ConvertCapped` | internal/convert/evict.go:25-38 | evict, then convert: at most `keep` images reach the upstream when every tool result counts for its images; what is converted are the messages less the first references; in general they are at most `keep` if and only if the references left and the images that do not count add up to no more than `keep`, the images that count and are not sent, and those dropped |
| `Evict.CapIsExact` | internal/convert/evict.go:25-92 | for every block: a conversation of it alone, evicted down to the images it counts for, is converted and keeps to the cap if and only if it is no tool result with an image source and several images |
| `Evict.SourceBreaksCap` | internal/convert/evict.go:66-75 | a block with an image source that counts as one image and sends two |
| `Items.AddedMeetsDone` | internal/responses/stream.go:320-645 | `added` and `done` of an item carry the number of items finished before it, and nothing is finished in between |
| `Items.TerminalIsLast` | internal/responses/stream.go:236-262 | nothing follows the terminal event, which carries every finished item |
| `Items.DoneIsDone` | internal/responses/stream.go:556-585 | the output list is the finished items in order |
| `Items.DoneAreDistinct` | internal/responses/stream.go:320-645 | no two finished items have the same id |
| `Items.ItemsRepeat` | internal/responses/stream.go:358-385 | text and reasoning accumulate over the whole response: each message item repeats all text before it, so the items say together what was streamed if and only if only the last says anything |
| `Translator.Translator.EnsureStarted` | internal/responses/stream.go:294-302 | created and in_progress, once |
| `Translator.Translator.CloseReasoning` | internal/responses/stream.go:358-385 | the reasoning item is finished with all reasoning so far |
| `Translator.Translator.CloseMessage` | internal/responses/stream.go:457-490 | the message item is finished with all text so far |
| `Translator.Translator.CloseToolItem` | internal/responses/stream.go:556-585 | the call's item is finished with all its arguments; never opened or finished before, nothing happens |
| `Translator.Translator.EmitReasoningRaw` | internal/responses/stream.go:320-356 | reasoning is under way and has grown by the text; what was under way before is finished and stored |
| `Translator.Translator.EmitTextRaw` | internal/responses/stream.go:416-455 | a message is under way and its text has grown; what was under way before is finished and stored |
| `Translator.Translator.EmitReasoningDelta` | internal/responses/stream.go:306-314 | the reasoning grows by what the filter lets through |
| `Translator.Translator.EmitTextDelta` | internal/responses/stream.go:404-412 | the text grows by what the filter lets through |
| `Translator.Translator.Tool` | internal/responses/stream.go:495-510 | the state of an index; only an undefended upstream id replaces the minted one, and only before the item is added |
| `Translator.Translator.OpenToolItem` | internal/responses/stream.go:516-553 | the call's item is under way, its buffered arguments sent; what was under way before is finished and stored |
| `Translator.Translator.ProcessToolCall` | internal/responses/stream.go:169-193 | one fragment: its call's new state; it is under way once it has a name; the others are only ever finished, each as it was; a delta strays exactly when the call is finished already |
| `Fragments.AccountsText` | internal/responses/stream.go:416-425 | whatever comes out for the reader ends the call under way, and its item has all fragments that had come |
| `Fragments.AccountsFragment` | internal/responses/stream.go:169-193 | after any fragment a call has the name and the arguments of all its fragments, and a finished call's item those of all but the late ones |
| `Fragments.AllArguments` | internal/responses/stream.go:180-193 | the items hold all arguments of their calls if and only if no late fragment carries any |
| `Fragments.StrictIsNeverLate` | internal/responses/stream.go:512-520 | an upstream that streams its calls one index after the other, and nothing else once they have begun, sends nothing late |
| `Fragments.InterleavedIsLate` | internal/responses/stream.go:180-187 | two calls and a third fragment for the first: its arguments are late |
| `Shelf.StoredFound` | internal/responses/stream.go:589-645 | a call found in the text is stored behind those before it, with an id no native call has |
| `Shelf.StoredNew` | internal/responses/stream.go:495-510 | while defending, the id of a new call is no other call's, if random numbers differ |
| `Translator.Translator.EmitHeuristicToolCall` | internal/responses/stream.go:589-645 | a call found in the text is one whole item with its name and canonical input |
| `Translator.Translator.ProcessContent` | internal/responses/stream.go:148-166 | content through both parsers, every part heard in order |
| `Translator.Translator.ProcessDelta` | internal/responses/stream.go:133-193 | reasoning, refusal, content and calls, in this order |
| `Translator.Translator.Process` | internal/responses/stream.go:102-195 | one chunk as it is to be taken in: the item protocol is kept, and which call is under way and which fragments are late is a function of what came in |
| `Translator.Translator.FlushParsers` | internal/responses/stream.go:212-237 | everything held goes out, and the calls still held in the text |
| `Translator.Translator.Finish` | internal/responses/stream.go:200-263 | nothing is left under way, and exactly one terminal event is sent and is last |
| `Translator.Respond` | internal/responses/stream.go:102-263 | every run: the item protocol with distinct ids, the exact text and reasoning, the status, one item for every named call, with all its fragments but the late ones, and for every call found in the text in order, while defending with call ids of the proxy's own, no two the same; stray deltas exactly as many as late fragments with arguments, none if and only if every item has all its call's arguments; chunk independence; text and reasoning of responses without tags as the chunks have them |
| `TakenIn.AllTaken` | internal/responses/stream.go:102-195 | field by field and in order, what is taken in is what the first deltas of the chunks hold that are no failure and no end marker; the last finish reason and the last failure count |
| `TakenIn.StatusMeans` | internal/responses/stream.go:200-263 | failed exactly when a chunk failed; incomplete exactly for the finish reasons length and content_filter |
| `Fragments.NameIsLast` | internal/responses/stream.go:169-173 | the last fragment of a call that carries a name gives it |
| `Fragments.IDIsGiven` | internal/responses/stream.go:495-510 | the last id that came up to the fragment that names a call is the one it was given |
| `ChatBody.ConvertInboundMessage` | internal/responses/convert.go:224-275 | a user or system item: text alone as one string, otherwise parts, with the original's rejections |
| `ChatBody.BuildChatBody` | internal/responses/convert.go:19-143 | the messages as the fold over the history, or the error the original gives (ChatTexts.AssistantTells, ChatBody.MessagesAreNormal and ChatTexts.RefusedExactly say what they are) |
| `ChatBody.MessagesAreNormal` | internal/responses/convert.go:36-143 | assistant messages are never neighbours, calls and outputs are kept once each in order, and tool turns carry reasoning |
| `ChatBody.OrderKept` | internal/responses/convert.go:36-143 | calls, outputs and everything said to the assistant stand in the messages in the order of the items: no output overtakes its call |
| `ChatTexts.AssistantTells` | internal/responses/convert.go:36-143 | each assistant message is the items between two boundaries: its content their non-empty texts joined by blank lines, its reasoning their reasoning joined by newlines, in a field, in a tag ahead of the text or nowhere, as the replay mode has it |
| `ChatTexts.InboundSays` | internal/responses/convert.go:224-275 | a user or system message: its string, its texts joined, or its parts in order when there is a picture or a file; refused exactly for a part that only a file id stands for |
| `ChatTexts.OutputSays` | internal/responses/convert.go:298-313 | a tool output is its string or its text parts line by line, under its call's id |
| `ChatTexts.FirstAndLast` | internal/responses/convert.go:19-36 | instructions come first and a string of input last, unless they are blank |
| `ChatTexts.RefusedExactly` | internal/responses/convert.go:19-143 | exactly which requests are refused, and the parameter the error names |
| `ChatTexts.FedBackTells` | internal/responses/convert.go:78-127 | of a finished response fed back, the assistant message says exactly the texts of its message items and, by mode, of its reasoning items |
| `ChatBody.ResponseFedBack` | internal/responses/convert.go:78-127 | a finished response fed back is one assistant message with exactly its calls, texts and reasoning |
| `WebSocket.Unmask` | internal/ws/conn.go:243-245 | in place, every byte with the mask byte of its position |
| `WebSocket.MaskTwice` | internal/ws/conn.go:243-245 | masking twice is not masking |
| `WebSocketLaws.MaskedBits` | internal/ws/conn.go:243-245 | masking turns over exactly the bits the mask byte of the position has |
| `WebSocket.Conn.ReadFrame` | internal/ws/conn.go:196-247 | one frame as the decoding of the bytes, with the original's errors |
| `WebSocket.DecodeInverts` | internal/ws/conn.go:196-247 | reading a legal client frame in any of the three length forms gives back its parts and consumes exactly the frame |
| `WebSocketLaws.DecodeExactly` | internal/ws/conn.go:196-247 | bytes are read as a frame if and only if they begin with a legal encoding of that frame |
| `WebSocketLaws.FirstBroken` | internal/ws/conn.go:196-247 | a frame with any header is refused for the first rule it breaks, and read when it breaks none |
| `WebSocketLaws.CutShort` | internal/ws/conn.go:196-247 | a stream that breaks off inside a legal frame, at whatever byte, has ended too early |
| `WebSocket.Conn.WriteFrame` | internal/ws/conn.go:252-275 | one server frame |
| `WebSocket.ServerFrameReads` | internal/ws/conn.go:252-275 | a server frame reads back whole, and its length could not be written shorter |
| `WebSocket.Conn.Read` | internal/ws/conn.go:111-169 | the next message: fragments put together, pings answered, a close echoed once, never above 64 MiB |
| `WebSocket.ReadReassembles` | internal/ws/conn.go:111-169 | any legal fragmentation with control frames in between reads as the concatenated payload, with one pong per ping in order |
| `WebSocketLaws.GoesOn` | internal/ws/conn.go:111-169 | frames that leave a message unfinished only add to what is under way, and every ping is answered in order |
| `WebSocketLaws.ReadEnds` | internal/ws/conn.go:111-169 | how a read ends, behind any pending frames: the message, the close with its frame sent back whole unless one has gone out, or the error of the frame that does not fit |
| `WebSocketLaws.ReadBreaks` | internal/ws/conn.go:111-169 | behind any pending frames, bytes that are no frame give their error |
| `WebSocketLaws.EveryRead` | internal/ws/conn.go:111-169 | whatever bytes come in, they are pending frames and then one of these two |
| `Pump.WritesArePrefix` | internal/proxy/server.go:786-836 | in every interleaving the writes but pings are a prefix of the events and at most one error line |
| `Pump.AllWritten` | internal/proxy/server.go:786-846 | when the client stays, a finished run has written everything and its dump says how the stream ended |
| `Pump.DumpedOnce` | internal/proxy/server.go:749-846 | one dump, after the pump has exited; client_abort exactly when the client was seen to leave |
| `Pump.SilentAfterAbort` | internal/proxy/server.go:817-836 | nothing is written once the client was seen to leave |
| `Pump.NeverStuck` | internal/proxy/server.go:786-846 | until the run has finished some step is possible |
| `Pump.DeliveredUnlessGivenUp` | internal/proxy/server.go:749-846 | when the client was not seen to leave, a finished run has written everything if and only if the pump never gave up an event |
| `Pump.CompletedIsNoPromise` | internal/proxy/server.go:822-836 | a run that says completed and has not written everything |
| `Ids.NewID` | internal/dump/dump.go:438-453 | the bytes of the id |
| `Ids.TimeComesBack` | internal/dump/dump.go:302-311 | the millisecond is recovered if and only if 48 bits hold it |
| `Ids.SessionStartBack` | internal/dump/dump.go:284-297 | the start is read off a directory's name, in progress or finished |
| `Ids.IdsSortByTime` | internal/dump/dump.go:434-453 | an earlier millisecond gives a lexicographically smaller id, whatever the random bytes |
| `Ids.IdLayout` | internal/dump/dump.go:438-453 | 36 characters: lower-case digits around four dashes, version 7 and the variant where they belong |
| `Ids.IdsTellApart` | internal/dump/dump.go:438-453 | two ids are the same if and only if their 48 bits of time and their 74 random bits are |
| `Merge.PathGet` | internal/config/merge.go:81-95 | a path exists as it does in the value |
| `Merge.PathSet` | internal/config/merge.go:101-122 | the value at the path is set; only the root and fresh copies are written |
| `Merge.PathDelete` | internal/config/merge.go:127-145 | the value at the path is removed if the way is all objects; only the root and fresh copies are written |
| `Merge.DeepMerge` | internal/config/merge.go:15-68 | the result is a merge for some visiting order (Merge.MergeApplies and the MergeValues lemmas say of every merge what it holds); nothing that existed before is written |
| `Merge.MergeApplies` | internal/config/merge.go:15-68 | for every visiting order no deleted path is left, and every default path is there unless a deleted path leads to it |
| `MergeValues.SourceWins` | internal/config/merge.go:15-68 | at every path of ordinary keys where the source has a value that is no object the merge has it, unless a deleted path leads there or a default leads beyond it |
| `MergeValues.TargetStays` | internal/config/merge.go:15-68 | where the source says nothing the target's value stays, under the same proviso |
| `MergeValues.NothingNew` | internal/config/merge.go:15-68 | a path that neither has and no default leads to or through is absent |
| `MergeValues.DefaultWins` | internal/config/merge.go:15-68 | where neither has a value the default's is taken, unless a deleted path or another default interferes |
| `MergeValues.SplitMeans` | internal/config/merge.go:81-145 | a written path is cut at its dots: no segment holds one, and with a dot between them they spell the path |

## Left out

- Streamer.Streamer.constructor: does the start of `run` too (builder, first block index, parsers), so that a streamer exists only in a running state.
- Builder.Builder.MessageStart: message id, model and usage of the event are not modelled.
- Builder.Builder.MessageDelta: the usage numbers of the event are not modelled.
- Builder.Builder.BufferTaskArgs: Task arguments that are the JSON text null make the original panic on a nil map; here they count as not parsing.
- Streamer.Streamer.ProcessToolCall: tool indices are natural numbers; the original would panic on a negative index when it infers a name from the request's tools.
- Streamer.Streamer.ProcessChunk: the texts of error messages are not modelled, only which error it is.
- Streamer.Streamer.EndMessage: the estimated output token count of message_delta is not modelled.
- Streamer.Translate: when the consumer leaves while a further attempt at an invisible turn is read, how far it was read is not determined.
- HeuristicTool.HeuristicToolParser.Feed: the regular expressions are recognisers written out; decoding of web tool JSON is the JSON oracle.
- Aggregate.AggregateMessage: blocks are values in a sequence that is reassigned, where the original keeps pointers; they are never shared. Message id, model and usage are not modelled.
- Convert.ConvertMessages: the sequence of messages is a value; the original copies the slice before it patches a sanitized turn.
- Evict.EvictOldImages: a tool result's content is its decoded list; re-encoding it to JSON bytes is not modelled.
- Translator.Translator.Process: usage numbers are not taken in.
- Translator.Translator.CloseToolItem: tool states live in a map by index and the open one is named by its index, where the original keeps a pointer to it.
- ChatBody.BuildChatBody: the request fields that are copied into the body one by one (temperature, tools, response format and the like) are not modelled.
- WebSocket.Conn.WriteFrame: writes always succeed; the write mutex is not modelled, and neither is the upgrade handshake.
- Merge.PathSet: arrays are values, since nothing here looks into them.
- Usage numbers, token estimates and the tokenizer ratio.
- HTTP handlers, routing, authentication, CORS, files, timers, the agentic loop, web search and fetch, vision calls, the response store and the caption cache: plumbing around the modelled cores.
- SHA-256, base64, encryption of reasoning and random bytes: parameters or a counter.
- The system prompt, tool list and tool choice conversions, the clean-ups of a request ahead of its conversion, and the repair of truncated JSON beyond returning valid JSON unchanged.
- Server tool blocks (`server_tool_use` and their results), which the agentic loop emits outside the streamer.
