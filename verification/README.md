# Gateway verification model

The repository is a gateway between clients that speak the Anthropic message protocol and an upstream that speaks
OpenAI chat completions. This project models its stateful core in Dafny and proves what its design promises.

* **Streaming** (`Protocol`, `Upstream`, `Translator`, `Lifecycle`, `Finishing`, `ToolBlocks`, `Rounds`, `Served`, `Replay`,
  `StreamState`, `Conversation`, `Steps`, `Pump`, `Delivery`). `Translator` holds the specification functions of the stream
  translator and `StreamState` the class that computes them in place. `Protocol` holds the client: a fold that rebuilds a
  message from frames and objects to any frame out of turn. `Lifecycle`, `Finishing` and `Rounds` carry the conservation
  invariant through every step, `ToolBlocks` says which calls are shown under which heads, `Served` which searches, and
  `Replay` that emitted content can be sent back as history. `Conversation` says what a whole reply over several upstream
  rounds amounts to without mentioning the translator; `Pump` runs it and is proved to come to exactly that.
* **The second implementation** (`Aggregate`, `Agreement`). The accumulator for replies that are not streamed, and exactly when
  both give the same message, with runs that separate them.
* **Event decoding** (`Sse`, `SseFields`). The decoder over arbitrary byte chunks against a reading of the whole input. It follows the
  server-sent events format of the WHATWG HTML standard, sections 9.2.5 and 9.2.6, except that a lone carriage return ends
  no line, `id` and `retry` are ignored, and an unfinished event is sent at the end.
* **Histories and rewriting** (`History`, `Converter`, `Fidelity`, `Sending`, `Adjacency`, `Epoch`, `Optimize`, `Json`,
  `Shortest`, `Canonical`). Conversion of histories and what is then sent, the two strips of historical reasoning and when they
  commute, compaction, and canonical tool arguments over a JSON printer and parser (sections 2 to 7 of RFC 8259).
* **Keys** (`KeyPool`, `Failover`). The key pool as a step system with a clock, and one request against it while others act.
* **Bounded stores** (`ShadowStore`, `Retention`, `ReasoningShadow`, `Filling`, `Neighbours`, `Lookups`, `LogFiles`, `Rolling`).
  Running byte totals kept beside the collections they sum up, what is kept and what comes back, and what sessions that share
  a store cost or save each other.
* **Retry hints** (`RetryHint`, `RetryWords`). The duration scanner, the wrapper scan and the structured search.

Classes hold the source's own fields and their methods are proved against specification functions of a `View()`; the
lemmas about those functions carry the properties. Iteration over hash maps is nondeterministic. Parsed JSON chunks,
search outcomes, fresh ids, the upstream's replies, the clock and the file system's answers are inputs.

Where the code differs from its comments, or one path from another, the model follows the code:

* `src/pool.rs:9` promises one probe in flight per key; the flag has no owner, and a stale lease drop breaks it
  (`KeyPools.TwoProbesArePossible`; exactly when it tells the truth: `KeyPools.FlagTellsExactlyWhenOwned`).
* `src/obs.rs:341-344` says cleanup deletes down to a watermark; the loop already stops at the quota, so the watermark has no
  effect (`LogFiles.ConfiguredWatermarkIsInert`). The index overflow test at `src/obs.rs:428` cannot fire, because the counter
  saturates: one file under the largest number keeps the writer searching for ever (`LogFiles.SearchEndsExactlyWhen`,
  `LogFiles.LastNumberTakenIsEndless`).
* `src/reasoning_shadow.rs:116` and `:321` speak of the oldest touch; the order is that of creation
  (`ShadowStore.OrderIsCreation`).
* Counting and sending drop the same reasoning except where thinking lies between the newest human message and a later,
  empty user message, or where a search cuts thinking off from the rest of an earlier message
  (`Epoch.StrippingCommutesExactlyWhen`).
* Streaming and aggregating differ on a late or lone tool id, on indices that open out of turn and on a trailing usage of the
  wrong shape (`Agreement.RepliesAgreeExactlyWhen`).
* Another session can save an entry its owner would have evicted, and let a lookup of several ids find another one
  (`Lookups.OthersNeverHelpExactlyWhen`).
* `src/cache.rs:551` expects a second canonicalizing pass to change nothing; that, and keeping what an argument means, depends
  on how numbers are read and rendered (`Canonical.SecondPassIsIdleExactlyWhen`, `Canonical.PassKeepsMeaningExactlyWhen`).
* A server-tool call renamed away from the search tool is neither shown nor searched (`Delivery.ExactlyOneDestination`).

## Model

| member | source | states |
|---|---|---|
| `Protocol.NotViolatedIsLegal` | src/anthropic.rs:1590-1994 | A client that never objects has received frames each of which was legal after those before it: one message start first, blocks numbered 0, 1, 2, …, deltas only to started, unstopped blocks whose head they fit. |
| `Protocol.EndedClientMeansLifecycle` | src/anthropic.rs:1590-1994 | A client that ended, by a stop or an error, has received exactly one lifecycle; the client fold and the declarative reading of the frames agree. |
| `Lifecycle.HandleTextKeeps` | src/anthropic.rs:2606-2621 | Text reaches the client whole and in order, and changes nothing else the translator tracks. |
| `Lifecycle.HandleReasoningKeeps` | src/anthropic.rs:2571-2605 | Each reasoning fragment goes to the client or to the shadow buffer, never to both, never to neither. |
| `Lifecycle.HandleToolKeeps` | src/anthropic.rs:2664-2735 | After any tool fragment, every index has all its fragments either in its own client block or in its buffer, no two indices share a block, and text and reasoning are untouched. |
| `Lifecycle.HandleToolsKeep` | src/anthropic.rs:2606-2630 | The same over any list of fragments of one chunk. |
| `Lifecycle.HandleDataKeeps` | src/anthropic.rs:2492-2632 | Conservation over one chunk: what the client, the tool buffers and the shadow hold is exactly what was received so far plus this chunk. |
| `Finishing.StartToolsKeep` | src/anthropic.rs:2737-2775 | Opening the tools still waiting, in any order the map may yield, keeps everything conserved and leaves no client tool unopened. |
| `Finishing.ClosingEffect` | src/anthropic.rs:2784-2800 | The closing frames shut every block the client has open, each once, and change no words. |
| `Finishing.FinishKeeps` | src/anthropic.rs:2777-2813 | Finishing closes every block, keeps all words, and reports the stop reason and the usage the finish reason and the last usage mean, each case of either said out. |
| `Finishing.FinalizeDelivers` | src/anthropic.rs:2737-2813 | Conservation at the end: every client tool sits in a closed block holding exactly its received fragments; text, reasoning, stop reason and usage are those received, for every order of the pending map. |
| `Delivery.ExactlyOneDestination` | src/anthropic.rs:2664-2775 | In a server-tool round an index is shown or searched, exactly one of the two and whole, if and only if no fragment renames it away from the search tool. |
| `Delivery.OneDestinationInRound` | src/anthropic.rs:2664-2775 | Read off a round's fragments: an index is left for the client or names the search tool, exactly one of the two, if and only if no fragment renames it away. |
| `Delivery.RenamedAwayIsPossible` | src/anthropic.rs:2664-2775 | A whole run from a new stream to the end in which a renamed index is neither shown nor searched; the reply stops without a block. |
| `ToolBlocks.DataShown` | src/anthropic.rs:2664-2735 | For any fragments: without server tools a client block opens with the first fragment of its index that brings a name or arguments, under the id and name known by then, in that order; with them none is shown before the end. |
| `ToolBlocks.FinalizeShows` | src/anthropic.rs:2737-2813 | The client calls of a finished reply are exactly those the fragments describe, heads and arguments, in the order they opened and then the order the pending map yields; nothing is invented. |
| `Rounds.CloseOpenKeeps` | src/anthropic.rs:2815-2843 | Closing the open text and thinking blocks before a server round forgets only the writing positions. |
| `Rounds.EmitUsesEffect` | src/anthropic.rs:2865-2911 | Announcing searches adds exactly one closed use block per call, with its id and input, after the blocks already there. |
| `Rounds.EmitResultsEffect` | src/anthropic.rs:2913-2939 | Reporting results adds exactly one closed result block per announced id, in order. |
| `Rounds.ExtendedKeeps` | src/anthropic.rs:2865-2939 | Blocks added by a server round leave text, reasoning and tool conservation intact. |
| `Replay.HandleDataReplays` | src/anthropic.rs:2492-2735 | Content emitted so far stays acceptable as history after any chunk, and no chunk adds a server use. |
| `Replay.FinalizeReplays` | src/anthropic.rs:2737-2813 | Content stays acceptable as history through the closing of the reply. |
| `Replay.RoundReplays` | src/anthropic.rs:2865-2939 | A server round with fresh ids keeps the content acceptable: each new use gets exactly one result with its id. |
| `Served.DataServes` | src/anthropic.rs:2492-2735 | A data chunk leaves the searches and results shown so far as they are. |
| `Served.RoundServes` | src/anthropic.rs:2865-2939 | A round of searches appends exactly its uses and its results to those shown, and counts one search for each. |
| `Conversation.ReadsUpToDone` | src/anthropic.rs:1643-1800 | What is read of an upstream round is everything it sends, in order, up to the first `[DONE]`; nothing after it without server tools, and everything if there is none. |
| `Conversation.OnlySearchesHoldNone` | src/anthropic.rs:1802-1830 | In a round of nothing but searches no call is left for the client. |
| `Steps.HandleStep` | src/anthropic.rs:2492-2632 | One payload keeps the whole run invariant, or ends the run: well exactly with the `[DONE]` of a reply without server tools, and with an error exactly when the payload cannot be handled where it stands. |
| `Steps.ServerRoundStep` | src/anthropic.rs:2815-2939 | One round of searches keeps the whole run invariant and shows exactly its uses and results. |
| `Steps.CallsAreRoundCalls` | src/anthropic.rs:2846-2863 | The calls listed after a round are those its payloads describe: ascending index, last id and name, all arguments. |
| `Pump.ReadRound` | src/anthropic.rs:1643-1800 | Reading a round takes exactly the payloads said by `Conversation.WholeRound`, or a first part of them if one cannot be handled; it ends the reply well exactly when a `[DONE]` without server tools makes the round complete. |
| `Pump.ServerTurn` | src/anthropic.rs:1802-1985 | After a round its searches are answered as specified, and the reply completes, pauses, asks to go on or breaks off exactly when the calls, the budget and the continuation say so. |
| `Pump.ExecuteWebSearchRound` | src/anthropic.rs:1999-2041 | Each call gets its own outcome: out of budget exactly when that many earlier calls held a query, else the refusal of arguments without a query, else what its own search found; the uses left drop by exactly the searches made. |
| `Pump.RunRounds` | src/anthropic.rs:1634-1985 | Round after round until the reply ends; every earlier round was handled to its end, asked for nothing but searches, had budget left and was continued. |
| `Pump.StreamBody` | src/anthropic.rs:1590-1994 | For any upstream, searches and failures: one lifecycle; the client holds exactly the text and permitted reasoning of the payloads read, round by round, and every search asked for in the rounds that could be handled, with its own result, in order; at most eight rounds and the allowed searches; it succeeds if and only if the last round could be handled and asked for nothing more, else it has read up to the first payload that could not be handled, or the whole round; a success shows that round's calls and can be sent back as history. Its stop reason is `pause_turn` if the reply pauses, else exactly what the last finish reason stands for, `tool_use` for a round with calls among them; its input, cache reads and cache writes are those of the last usage and add up to the prompt it reports, and it counts the searches shown. |
| `StreamStates.StreamState.constructor` | src/anthropic.rs:2441-2478 | A new translator is the initial specification state. |
| `StreamStates.StreamState.HandleTool` | src/anthropic.rs:2664-2735 | The fields after a fragment, and the frames, are those of the specification. |
| `StreamStates.StreamState.HandleData` | src/anthropic.rs:2492-2632 | The same for one parsed chunk. |
| `StreamStates.StreamState.Handle` | src/anthropic.rs:2492-2632 | The same for any payload, the end marker and malformed data included; the pending map may be drained in any order. |
| `StreamStates.StreamState.Finalize` | src/anthropic.rs:2737-2775 | The same for the end of the stream, under some order of the pending tools. |
| `StreamStates.StreamState.FinishWithStop` | src/anthropic.rs:2777-2813 | The same for the closing frames. |
| `StreamStates.StreamState.FinalizeAsPaused` | src/anthropic.rs:2948-2957 | The same for a paused turn. |
| `StreamStates.StreamState.CloseOpenContentBlocks` | src/anthropic.rs:2815-2843 | The same for closing open text and thinking. |
| `StreamStates.StreamState.OpenAiToolCalls` | src/anthropic.rs:2846-2863 | The buffered calls are listed in rising order of their index, with all their arguments. |
| `StreamStates.StreamState.EmitServerToolUse` | src/anthropic.rs:2865-2911 | The fields and frames of announcing searches are those of the specification. |
| `StreamStates.StreamState.FinishServerToolRound` | src/anthropic.rs:2913-2939 | The same for reporting results. |
| `StreamStates.StreamState.BeginNewRound` | src/anthropic.rs:2941-2946 | The same for starting the next round. |
| `Aggregate.AccumulatesEverything` | src/anthropic.rs:1254-1358 | Aggregating any well-formed chunks collects all text, all reasoning, every tool's fragments under its first id and name in order of appearance, the last finish reason and the last meaningful usage. |
| `Aggregate.NonStreamAccumulator.Handle` | src/anthropic.rs:1254-1358 | The accumulator's fields follow the specification fold, errors included. |
| `Aggregate.AggregateStream` | src/anthropic.rs:1436-1589 | Feeding all payloads one by one computes the fold, stopping at the first error. |
| `Agreement.StreamedReply` | src/anthropic.rs:2492-2813 | What a client rebuilds from the streamed frames of any data chunks with a finish reason, stated on the chunks themselves, stop reason and usage case by case. |
| `Agreement.AggregatedBody` | src/anthropic.rs:1360-1408 | What aggregation yields for the same chunks, stated on the chunks themselves. |
| `Agreement.AggregatedReply` | src/anthropic.rs:945-1028 | The reply that is not streamed, for any data chunks: it fails exactly when they bring nothing or some call has arguments that are neither blank nor JSON; else it holds their thinking if exposed, their text and their calls, in this order and nothing else, and its stop reason and usage say what the last of each means. |
| `Agreement.IndexAgreesExactlyWhen` | src/anthropic.rs:1330-1348 | For any fragments the two paths report the same call for an index if and only if some fragment opens it, the id known by then is the first sent, or none but the stand-in ever is, and its name comes by then, or none but the stand-in ever does. |
| `Agreement.CallsAgreeExactlyWhen` | src/anthropic.rs:1330-1385 | As long as indices open in the order they appear, the two tool lists are equal if and only if every index agrees. |
| `Agreement.OrderAgreesExactlyWhen` | src/anthropic.rs:1330-1385 | With every index in agreement and ids that differ, the lists are equal if and only if indices open in the order they appear. |
| `Agreement.UsagesAgreeExactlyWhen` | src/anthropic.rs:1274-1284 | The two totals are equal if and only if the last usage sent is a non-empty object, or none was sent, or the last such one converts to nothing but zeros. |
| `Agreement.LeadingNamedAgrees` | src/anthropic.rs:2664-2735 | Indices whose first fragment carries id and name all agree and open in turn. |
| `Agreement.RepliesAgreeExactlyWhen` | src/anthropic.rs:945-1028 | Where the two paths agree, for every upstream that finishes: always on text, thinking and stop reason; on the totals and on the tools exactly under the conditions above. |
| `Agreement.StreamAgreesWithAggregate` | src/anthropic.rs:945-1028 | The main agreement, on all inputs that meet those exact conditions: streaming and aggregating give the same text, thinking, tool calls in the same order with ids, names and arguments, stop reason and usage, for every draining order; conversion refuses exactly when some arguments do not parse. |
| `Agreement.TrailingNullUsageDisagrees` | src/anthropic.rs:1274-1284 | Both paths run on one input: a trailing usage of the wrong shape separates the totals. |
| `Agreement.LateIdDisagrees` | src/anthropic.rs:1330-1348 | Both paths run on one input: an id that comes after its block opened separates the calls. |
| `Agreement.LoneIdDisagrees` | src/anthropic.rs:1360-1385 | Both paths run on one input: an index with nothing but an id is shown as an unnamed call and dropped by the aggregate. |
| `Agreement.OutOfTurnDisagrees` | src/anthropic.rs:1330-1385 | Both paths run on one input: every index agrees and ids differ, but an index that appears first opens second, and the calls come out in two orders. |
| `Sse.LinesAreBlocks` | src/anthropic.rs:2342-2367 | Processing lines one by one is reading them in blocks ended by empty lines: name and data of each block, joined by line feeds. |
| `Sse.SplitConcat` | src/anthropic.rs:2306-2326 | Splitting a buffer into lines does not depend on where a chunk ended. |
| `Sse.DecodeIsWholeInput` | src/anthropic.rs:2305-2375 | Whatever the chunks, decoding within the size limit yields the events of the whole input. |
| `Sse.ChunkingIsInvisible` | src/anthropic.rs:2305-2375 | Two chunkings of the same bytes that both stay within the limit decode alike. |
| `Sse.FramesRoundTrip` | src/anthropic.rs:3008-3010 | Decoding any chunking of written frames yields one event per frame; they are the original names and payloads if and only if none ends in a carriage return. |
| `SseFields.FieldsDecode` | src/anthropic.rs:2342-2375 | However values stand behind their colon, with a space or without, whatever the line ends, comments, order of fields and chunks: an event yields its data fields, joined by line feeds, under the last name it was given, and none if it has no data. |
| `Sse.SseDecoder.Push` | src/anthropic.rs:2306-2326 | Succeeds exactly when the limits hold at every line, and then computes the specification step; the running byte count always equals the pending lines' total, and exceeding a limit empties the decoder. |
| `Sse.SseDecoder.Finish` | src/anthropic.rs:2328-2340 | An unterminated line counts as a line and an unfinished event is sent, at most one. |
| `Sse.DecodeChunks` | src/anthropic.rs:2305-2375 | Driving the decoder over all chunks yields the events of the whole input, or nothing if a limit was exceeded. |
| `History.ConvertAssistantMeans` | src/anthropic.rs:407-563 | An assistant message is accepted exactly when every block is legal after those before it and every server use has exactly one later result. |
| `History.UserScanMeans` | src/anthropic.rs:565-683 | A user message is accepted exactly when its tool results come first, answer declared ids and answer each at most once. |
| `History.AcceptedIffValid` | src/anthropic.rs:353-405 | A history is accepted exactly when every message is valid against the calls the previous message declared. |
| `Fidelity.AssistantKeepsContent` | src/anthropic.rs:407-563 | The wire messages of an accepted assistant message hold its texts, calls, thinking and search results, each complete and in order. |
| `Fidelity.UserKeepsContent` | src/anthropic.rs:565-683 | A user message becomes its tool results in order, then one message with everything else in order, which an empty one still sends. |
| `Sending.AssistantIsConveyed` | src/anthropic.rs:407-563 | What is sent for an accepted assistant message says its texts and results, its calls and results, and its thinking, each complete and in order, read off the sent messages; without searches in one message. |
| `Sending.UserIsConveyed` | src/anthropic.rs:565-683 | A user message is sent as its tool results with their ids, contents and error flags, then one message with the rest. |
| `Sending.HistoryIsSent` | src/anthropic.rs:313-405 | For every accepted history: what is sent is, message by message and in order, what each message says under its own role; a plain text as that text alone, a system message with its content, and no other message. |
| `Converter.Conversion.ConvertAssistantBlocks` | src/anthropic.rs:407-563 | The loop over blocks computes the specification, wire messages, pending ids and the first error alike. |
| `Converter.Conversion.ConvertUserBlocks` | src/anthropic.rs:565-683 | The same for user blocks. |
| `Converter.ConvertMessages` | src/anthropic.rs:353-405 | Succeeds exactly on valid histories, and what is then sent says, message by message, what they say; otherwise the first refusal. |
| `Adjacency.AcceptedAnswers` | src/anthropic.rs:353-683 | Every tool message of an accepted history names a call declared by an earlier assistant message. |
| `Adjacency.AcceptedIsAdjacent` | src/anthropic.rs:353-683 | Without server tools, it follows that message with only tool messages between, each answering a different id. |
| `Epoch.StripAssistantCommutes` | src/optimize.rs:349-372 | For every assistant message, searches included: dropping its thinking before converting equals dropping the wire reasoning afterwards if and only if no search cuts off a segment of nothing but thinking; otherwise it gives fewer wire messages. Acceptance and declared ids never change. |
| `Epoch.StripBelowCommutes` | src/optimize.rs:349-392 | The same for the first messages of a history, acceptance and pending ids included. |
| `Epoch.StripBelowShortens` | src/optimize.rs:349-392 | A stripped history is accepted, declares the same ids, and gives fewer wire messages if a stripped message splits. |
| `Epoch.StrippingCommutes` | src/optimize.rs:238-271 | In particular they agree when no user message is empty and no server tools occur. |
| `Epoch.StrippingCommutesExactlyWhen` | src/optimize.rs:238-392 | For every accepted history, stripping then converting equals converting then stripping if and only if no stripped assistant message has thinking cut off by a search and no thinking lies between the two epoch boundaries. |
| `Epoch.EmptyUserMessageSplitsTheEpoch` | src/optimize.rs:374-392 | A concrete history with an empty user message on which the two differ. |
| `Epoch.SearchAfterThinkingSplits` | src/optimize.rs:238-271 | A concrete accepted history with a search after thinking on which the two differ. |
| `Optimize.CompactionIsLossless` | src/optimize.rs:274-299 | Compaction keeps what a content says, and two contents that say the same compact to the same value. |
| `Optimize.CountedIsSent` | src/optimize.rs:238-271 | The counting path and the sending path drop the same reasoning from the same turns whenever the two strips agree. |
| `Optimize.OptimizedMeans` | src/optimize.rs:238-299 | Message by message: assistant reasoning goes exactly before the newest user message, if asked for; contents say what they said, and are compacted, empty texts gone and neighbouring texts one, exactly if asked for; everything else stays. |
| `Optimize.StripMeans` | src/optimize.rs:349-392 | The strip of a request: assistant messages before the newest human turn, or all of them without one, lose exactly their thinking blocks, in place. |
| `Optimize.OptimizeMessages` | src/optimize.rs:238-271 | The in-place pass strips exactly the assistant reasoning before the newest user message and compacts exactly the contents asked for. |
| `Optimize.StripAnthropicThinking` | src/optimize.rs:349-372 | The in-place strip yields the stripped history and reports the number of blocks removed. |
| `Json.PrintedParses` | src/cache.rs:135-141 | Reading back a printed value returns it, key order included, with its numbers read and rendered once more, at any nesting the parser allows; nothing exactly when one of them is out of range. |
| `Json.RoundTripExactlyWhen` | src/cache.rs:135-141 | It returns the same value if and only if every number in it reads back as itself. |
| `Shortest.PrintedIsShortest` | src/cache.rs:135-141 | As long as no number is rendered longer than it was written, no text that is read as a value is shorter than its printed text; in particular no space and no escape that could be shorter is printed. |
| `Json.ParsedIsWellFormed` | src/cache.rs:178-186 | Whatever a parser accepts has distinct keys at every level, grammatical numbers and bounded nesting. |
| `Canonical.SortedKeepsMeaning` | src/cache.rs:97-133 | Sorting keys at every level keeps the value's meaning. |
| `Canonical.CanonicalUnique` | src/cache.rs:97-133 | Two sorted values with the same meaning are equal. |
| `Canonical.PrintedInjective` | src/cache.rs:91-95 | Two values print alike only if they are equal. |
| `Canonical.CanonicalExactlyMeaning` | src/cache.rs:91-133 | Canonical texts are equal if and only if the values mean the same, whatever their key order. |
| `Canonical.CanonicalReads` | src/cache.rs:91-133 | Parsing canonical text returns the sorted value with its numbers read once more, which means the same if and only if every number in it reads back as itself; sorting again changes nothing. |
| `Canonical.WriteCanonical` | src/cache.rs:97-133 | The recursive writer appends exactly the canonical text to its output. |
| `Canonical.RewrittenKeepsExactlyWhen` | src/cache.rs:183-190 | For any argument text: rewritten, it means what it meant, or stays as it was if it is not JSON, if and only if each number in it, once read and rendered, reads back as itself. |
| `Canonical.RewrittenTwiceExactlyWhen` | src/cache.rs:183-190 | A second rewrite changes nothing if and only if each number does so, or some number is out of range by then. |
| `Canonical.LoneNumber` | src/cache.rs:183-190 | A text that is one number in range becomes what it is rendered as, and keeps its meaning if and only if that reads back as itself. |
| `Canonical.ScaledFloatDrifts` | src/cache.rs:183-190 | With a float reader that scales by a rounded power of ten, the argument 30e22 changes its meaning, and changes again the next time. |
| `Canonical.PassTouchesOnlyArguments` | src/cache.rs:151-195 | Only argument texts of assistant calls before the newest user or tool message are rewritten; everything else stays in place, for any reader of numbers. |
| `Canonical.PassIsCanonical` | src/cache.rs:151-195 | Read off the messages before and after: in exactly the assistant messages that a user or tool message follows, each argument text that is JSON is now the printed text of a value with sorted keys and the same meaning; the count is the number of argument texts that differ. |
| `Canonical.SameMeaningSameText` | src/cache.rs:183-190 | Two historical arguments that mean the same leave the pass as the same text. |
| `Canonical.PassKeepsMeaningExactlyWhen` | src/cache.rs:151-195 | The pass keeps what every argument means if and only if each number in a rewritten text, once read and rendered, reads back as itself. |
| `Canonical.SecondPassIsIdleExactlyWhen` | src/cache.rs:151-195 | A second pass changes nothing, and counts nothing, if and only if each rewritten text is settled in that sense or holds a number out of range by then. |
| `Canonical.CanonicalizeToolArguments` | src/cache.rs:151-195 | The in-place pass computes the rewritten messages and the number of arguments changed. |
| `KeyPools.EmptyExactlyWhenCooling` | src/pool.rs:225-285 | Selection is empty if and only if every key not yet attempted is cooling. |
| `KeyPools.GrantMeans` | src/pool.rs:225-285 | The key granted is usable, and none between the active key and it is, walking upwards and on from the first; a key already being probed is shared only when no other key would do; a grant is a probe exactly when the key is half-open. |
| `KeyPools.SelectMeans` | src/pool.rs:225-285 | A selection makes the granted key the active one and sets its flag if it is to be probed; no other key, deadline or clock changes, and without a grant nothing does. |
| `KeyPools.ActiveMovesOnlyWhen` | src/pool.rs:225-285 | The active role leaves a key only on its own rate limit or when a selection could not use it. |
| `KeyPools.FreshRequestSticks` | src/pool.rs:225-285 | A request that has tried nothing gets a healthy active key, and the pool stays as it is. |
| `KeyPools.LimitMeans` | src/pool.rs:290-319 | A confirmed rate limit makes exactly its key cool for exactly the cooldown, at most 366 days, and moves the active role only from that key, to the next key upwards, and on from the first, that is neither cooling nor probed. |
| `KeyPools.VerdictsMean` | src/pool.rs:323-343 | A success makes its key healthy for good, a release only ends a probe; neither touches another key or the active role. |
| `KeyPools.HealthyUntilLimited` | src/pool.rs:290-343 | In every run a healthy key stops being healthy only by its own confirmed rate limit. |
| `KeyPools.ProbesAreSeparated` | src/pool.rs:236-285 | In every run two probe grants on one key are separated by an event that cleared its flag. |
| `KeyPools.OneProbeWhenOwned` | src/pool.rs:135-147 | While only the holder clears a key's flag, the flag says exactly whether a probe is outstanding and there is at most one. |
| `KeyPools.FlagTellsExactlyWhenOwned` | src/pool.rs:135-147 | In every run the flag says throughout whether a probe is outstanding if and only if a request clears it only while it holds the probe itself, or while nobody does. |
| `KeyPools.ProbeFollowsExactlyWhen` | src/pool.rs:236-285 | Some next request can be granted a probe if and only if the key was limited and its flag is clear, whoever holds a probe. |
| `KeyPools.TwoProbesArePossible` | src/pool.rs:143-147 | A concrete run in which a stale lease drop leads to two outstanding probes. |
| `KeyPools.RunStaysOnTime` | src/pool.rs:290-343 | In every run each deadline is at most 366 days ahead and the persisted deadline agrees with it until it passes. |
| `KeyPools.RestoreKeeps` | src/pool.rs:436-519 | Persist and restore at one instant, names in any order: same active key, same classes except that a probe becomes half-open and a cooldown within its last millisecond is over; no cooldown grows or shrinks by a millisecond. |
| `KeyPools.PersistedMeans` | src/pool.rs:436-458 | What is written: the name of the active key, and for exactly the configured names their deadline in whole milliseconds, nothing for a key not limited since its last success. |
| `KeyPools.RestoredMeans` | src/pool.rs:463-519 | Restoring any state: exactly the first key of each name in it takes its deadline, capped, and is cooling until then and half-open after; a known active name takes the role. |
| `KeyPools.KeyPool.Select` | src/pool.rs:225-285 | Returns the grant and leaves the state of the specification. |
| `KeyPools.KeyPool.Scan` | src/pool.rs:236-285 | Takes the first usable key from the active one on, or changes nothing. |
| `KeyPools.KeyPool.MarkHttp429` | src/pool.rs:290-319 | Sets the capped deadline, clears the flag and advances the active role as specified. |
| `KeyPools.KeyPool.AdvanceIfActive` | src/pool.rs:551-573 | Moves the active role to the first key after it that is neither cooling nor probed, if there is one. |
| `KeyPools.KeyPool.MarkSuccess` | src/pool.rs:323-334 | Makes the key healthy and touches nothing else. |
| `KeyPools.KeyPool.ReleaseProbe` | src/pool.rs:339-343 | Clears the key's flag and touches nothing else. |
| `KeyPools.KeyPool.EarliestRetryAfter` | src/pool.rs:349-360 | Returns the least time until a deadline that has not passed, nothing exactly when there is none. |
| `KeyPools.KeyPool.PersistState` | src/pool.rs:436-458 | Records the active name and each name's deadline in whole milliseconds. |
| `KeyPools.KeyPool.Restore` | src/pool.rs:463-519 | Restores each named key, in whatever order the entries come, and the active key if its name is known. |
| `Failover.NewGrant` | src/upstream.rs:396-410 | The next grant of a request is to a key it has not tried. |
| `Failover.SendChat` | src/upstream.rs:396-528 | With arbitrary replies and arbitrary other users of the pool: one request ends, tries distinct granted keys, goes on only after a confirmed rate limit, does to the pool exactly its selections, verdicts and lease drops, and gives up only when every key it did not try is cooling. |
| `Failover.OwnEventsMean` | src/upstream.rs:396-528 | What a request does to the pool, with each reason: a key is marked good exactly if it answered, limited exactly if confirmed and for the time said, released exactly if it was probed; one selection for each attempt. |
| `ShadowStore.EnforcedIsShortest` | src/reasoning_shadow.rs:298-347 | Enforcing limits drops the sessions with nothing live and then the shortest sufficient run of oldest sessions; both limits hold afterwards and the accounting stays right. |
| `Retention.EnforcedKeepsNewest` | src/reasoning_shadow.rs:298-347 | The sessions kept are the newest of those with a live entry, as many as fit both limits and no fewer, each unchanged and in order, with their bytes as the total. |
| `Retention.StoredMeans` | src/reasoning_shadow.rs:150-198 | Storing puts the reasoning under every id, last in order if the session is new, with its bytes once for each id, and then keeps the newest; empty, idless and oversized reasoning changes nothing. |
| `Retention.LookupMeans` | src/reasoning_shadow.rs:200-231 | The first id with an entry decides: live, it is found and nothing changes; expired, it is a miss and alone is dropped; without one nothing changes. |
| `Retention.ClearedMeans` | src/reasoning_shadow.rs:233-242 | Clearing takes away the session, its place and its bytes, and nothing else. |
| `ShadowStore.RunKeeps` | src/reasoning_shadow.rs:150-242 | In every reachable store the total is the sum of session bytes, each session's bytes bound its content, and the order lists each live session once. |
| `ShadowStore.OrderIsCreation` | src/reasoning_shadow.rs:150-242 | In every reachable store the order lists the live sessions from first created to last. |
| `ShadowStore.EntriesAreLatest` | src/reasoning_shadow.rs:150-242 | Everything a reachable store holds is what a plain log of accepted stores and clears says. |
| `ShadowStore.HitIsLatest` | src/reasoning_shadow.rs:200-231 | A hit is the latest unexpired reasoning logged for that session and one of the ids since its last clear. |
| `ShadowStore.StoredIsFound` | src/reasoning_shadow.rs:150-231 | While its session is kept, what was stored is found under each of its ids exactly until it expires. |
| `ShadowStore.LatestIsOwn` | src/reasoning_shadow.rs:150-231 | What the log says about a session does not depend on other sessions. |
| `ShadowStore.OthersOnlyLose` | src/reasoning_shadow.rs:150-347 | One operation on another session can only turn a hit into a miss. |
| `Neighbours.OwnRunCovers` | src/reasoning_shadow.rs:150-347 | Every run against the run of a session's own operations: while the session never crowds its own store, the shared store holds no entry for it that its own would not. |
| `Neighbours.WithinHits` | src/reasoning_shadow.rs:200-231 | Where the shared store holds no more than its own for the session, a hit in the shared one is the same hit in its own, for one id, and for several as long as both hold the same one first. |
| `Neighbours.NeighbourSaves` | src/reasoning_shadow.rs:298-347 | Wherever a session crowds its own store, a neighbour at the right time saves the new entry: a lookup of its first id hits with the neighbour and misses without. |
| `Neighbours.OneIdExactlyWhen` | src/reasoning_shadow.rs:298-347 | For lookups of one id: whatever others do and whenever, they only turn hits into misses, if and only if no store of the session that fits by itself takes its accounted bytes past the limit. |
| `Lookups.SharedIsOwnSince` | src/reasoning_shadow.rs:150-347 | In every run, a session the shared store holds is exactly, entries and bytes, what the session's own operations since some point leave in an empty store. |
| `Lookups.InterruptedForgets` | src/reasoning_shadow.rs:150-347 | Before any store of its own that fits, one store of a neighbour makes the session start afresh: the run ends as if nothing had been done before. |
| `Lookups.OthersNeverHelpExactlyWhen` | src/reasoning_shadow.rs:150-347 | For lookups of any number of ids, as requests make them, and clocks read in any order: whatever others do and whenever, they only turn hits into misses, if and only if the session never crowds its own store and at no time would starting afresh earlier have left it entries that say something else than one forgotten, or outlive it. |
| `Lookups.OnTimeExactlyWhen` | src/reasoning_shadow.rs:150-347 | The same when the session's stores come in order of time: others never help if and only if it never crowds its own store and never holds two different entries at once. |
| `Lookups.TwoIdsDisagree` | src/reasoning_shadow.rs:200-231 | A concrete run that never crowds its store, and a lookup of two ids: alone it finds the first text, with a neighbour in between the second. |
| `ShadowStore.OthersCanSaveAnEntry` | src/reasoning_shadow.rs:298-347 | Over a longer run another session can save an entry that its owner alone would have evicted: a concrete run. |
| `ShadowStore.RestoredKeeps` | src/reasoning_shadow.rs:200-231 | Dropping an expired entry lazily keeps the accounting an upper bound. |
| `ReasoningShadow.ReasoningShadowStore.StoreReasoning` | src/reasoning_shadow.rs:150-198 | Stores under every id and enforces the limits as specified; empty, idless and oversized reasoning changes nothing. |
| `ReasoningShadow.ReasoningShadowStore.EnforceLimits` | src/reasoning_shadow.rs:298-347 | Computes the specification whichever order stale sessions are visited in. |
| `ReasoningShadow.ReasoningShadowStore.Restore` | src/reasoning_shadow.rs:200-231 | The first id with an entry decides; an expired one is dropped and is a miss even if a later id would hit. |
| `ReasoningShadow.ReasoningShadowStore.ClearSession` | src/reasoning_shadow.rs:233-242 | Removes the session, its place in the order and its bytes. |
| `ReasoningShadow.FilledOnlyFromLog` | src/reasoning_shadow.rs:251-294 | Filling a request changes only assistant messages without reasoning after the newest user message, and only to the latest unexpired reasoning logged for one of their own calls. |
| `Filling.FillingMeans` | src/reasoning_shadow.rs:251-294 | Exactly the assistant messages after the newest user message with calls and without reasoning are looked up, and each gets the text of the first of its ids still held, behind all its fields, if and only if that is live; what a lookup found expired is forgotten, and nothing else. |
| `Filling.LiveComesBack` | src/reasoning_shadow.rs:251-294 | A message whose first held id has a live entry gets that text, whatever was looked up before; one with no id held, or only expired ones, stays as it was. |
| `Filling.StoredComesBack` | src/reasoning_shadow.rs:150-294 | Reasoning stored under a call's id is put back into a message that leads with that call, until it expires. |
| `ReasoningShadow.RestoreInto` | src/reasoning_shadow.rs:251-294 | The in-place pass computes the filled messages and the store after its lookups. |
| `LogFiles.NameRoundTrip` | src/obs.rs:391-414 | A segment's name gives back its number. |
| `LogFiles.OpenedIsNewest` | src/obs.rs:391-436 | A fresh segment's number is above every listed one unless the numbers are used up. |
| `LogFiles.SearchEndsExactlyWhen` | src/obs.rs:408-436 | The search for a name ends if and only if some index from the start on is free; the overflow test cannot fire. |
| `LogFiles.LastNumberTakenIsEndless` | src/obs.rs:391-436 | One file under the largest number is enough: the next number is that one again, it is taken, and the search never ends. |
| `LogFiles.ReturnsExactlyWhen` | src/obs.rs:438-508 | A write fails to return exactly when logging is on, a segment has to be opened, and no number is left for it. |
| `LogFiles.EnforcedIsShortest` | src/obs.rs:455-476 | Quota enforcement forgets the shortest sufficient run of oldest segments and never the active one; the disk loses exactly their files, but for those that cannot be removed. |
| `LogFiles.WriteKeeps` | src/obs.rs:478-508 | After every successful write the total equals the sum, the active segment is last and holds the line, and the total is at most the quota or one full segment and the line. |
| `Rolling.WrittenMeans` | src/obs.rs:391-508 | A line goes to the open segment if that has room, else to a fresh one under the least free number past those in use; every way a write can fail, end logging or not return is told apart; then the oldest segments go with their files, no more than the quota asks for. |
| `LogFiles.WatermarkInertExactlyWhen` | src/obs.rs:455-476 | The watermark never changes an outcome if and only if it is not above the quota. |
| `LogFiles.ConfiguredWatermarkIsInert` | src/obs.rs:1119-1123 | Whatever percentage is configured, capped and saturating as the code computes it, the watermark changes no outcome. |
| `LogFiles.FileWriter.NextSegmentIndex` | src/obs.rs:391-404 | One past the largest number in use, saturating, and at least 1. |
| `LogFiles.FileWriter.OpenFreshSegment` | src/obs.rs:408-436 | Opens the least free index from there on, or fails without a trace; a search that would never end is told apart. |
| `LogFiles.FileWriter.RotateIfNeeded` | src/obs.rs:438-453 | Opens a fresh segment exactly when none is open or the active one is full. |
| `LogFiles.FileWriter.EnforceQuota` | src/obs.rs:455-476 | Computes the specification. |
| `LogFiles.FileWriter.WriteLine` | src/obs.rs:478-508 | Computes the specification and keeps the total right in every outcome; it says when the call would not return. |
| `RetryHint.ScanRendered` | src/rate_limit.rs:376-413 | Scanning written components yields their exact total, or nothing if it needs more than 128 bits. |
| `RetryHint.RenderedParses` | src/rate_limit.rs:362-422 | A text whose candidate is a list of written components parses to their exact total precisely when that is at most 366 days, and to nothing otherwise. |
| `RetryHint.MarkedParses` | src/rate_limit.rs:364-374 | The same after the first marker that occurs, at its first occurrence. |
| `RetryWords.QuantityParses` | src/rate_limit.rs:362-422 | A number and `d`, `h`, `m`, `s` or `ms`, in any letter case, with white space between or not, is that many of 86400000, 3600000, 60000, 1000 or 1 milliseconds, up to 366 days. |
| `RetryWords.CaseDoesNotMatter` | src/rate_limit.rs:362-374 | Texts that differ only in letter case say the same duration. |
| `RetryWords.NoNumberIsNone` | src/rate_limit.rs:362-391 | A text without a marker that does not begin with a number says no duration. |
| `RetryHint.ParseRetryDuration` | src/rate_limit.rs:362-418 | The scanning loop computes the specification, overflow included. |
| `RetryHint.StemReports` | src/rate_limit.rs:201-213 | Scanning on only after each match misses no report, because no stem can begin inside another occurrence of itself. |
| `RetryHint.WrapperReportsStatus` | src/rate_limit.rs:201-217 | True if and only if some occurrence of some stem is followed by the status. |
| `RetryHint.StatusIsRead` | src/rate_limit.rs:219-243 | A status after punctuation, with or without the word HTTP, is read exactly if it fits 16 bits. |
| `RetryHint.SearchFindsPath` | src/rate_limit.rs:169-192 | What the structured search finds lies at the end of some path, under an explicit status key or a status key inside an error. |
| `RetryHint.PathIsFound` | src/rate_limit.rs:169-192 | Every such path is found. |
| `RetryWords.StatusNames` | src/rate_limit.rs:169-192 | Which keys count: those that spell `upstreamstatus`, `statuscode` or `httpstatus` anywhere, and `status` inside an `error`, in any letter case and with hyphens and underscores anywhere. |
| `RetryWords.NumberReports` | src/rate_limit.rs:193-199 | A JSON number reports a status exactly if it is written as that status, and fits 64 bits. |
| `RetryWords.TextReports` | src/rate_limit.rs:193-199 | A string reports a status exactly if it holds that number, with white space around it or not. |
| `RetryHint.ClassifyUpstreamResponse` | src/rate_limit.rs:119-167 | A response counts as rate limited exactly when it is a 429, or a server error in which some path or some wrapper phrase with rate-limit wording reports one. |

## Left out

- Pump.StreamBody: fresh server-tool ids are assumed distinct; a search's result is a function of its round and place, and every search the budget refuses has the same result block; message ids, models and `stop_sequence` are not compared.
- Agreement.CallsAgreeExactlyWhen: when indices open out of turn the two lists are given (`ToolBlocks.FinalizeShows`, `Agreement.AggregatedBody`) but compared only for ids that differ (`Agreement.OrderAgreesExactlyWhen`).
- Agreement.StreamAgreesWithAggregate: leaves out where text and thinking stand among the tools, `stop_sequence`, thinking signatures, message id and model, which the two paths fill differently. Parsing of arguments is one arbitrary function on both sides.
- Sse.FramesRoundTrip: lossy UTF-8 decoding is an arbitrary function on lines that leaves the written lines alone.
- Json.ParsedIsWellFormed: assumes that a number is rendered as a JSON number, as do `Canonical.RewrittenKeepsExactlyWhen`, `Canonical.RewrittenTwiceExactlyWhen`, `Canonical.LoneNumber`, `Canonical.ScaledFloatDrifts`, `Canonical.PassIsCanonical`, `Canonical.PassKeepsMeaningExactlyWhen` and `Canonical.SecondPassIsIdleExactlyWhen`; nothing else is assumed of reading and rendering, which are one arbitrary function on tokens.
- Canonical.ScaledFloatDrifts: the two readings it starts from are those of the JSON library's default float reader, which is not part of the repository; `Cargo.toml:35` does not ask for the exact one.
- Json.PrintedParses: the parser models the JSON library the program calls, which is not part of the repository; its nesting limit of 128 is a parameter.
- KeyPools.KeyPool.Select: one selection is one step; other requests act between selections, not inside one scan of the keys. The monotonic and the wall clock are one clock.
- KeyPools.RestoreKeeps: rate-limit kinds, messages, models, success times and restore counts are not modelled.
- Failover.SendChat: request bodies, headers, logging and the wording of outcomes are not modelled; a reply is its classification.
- ShadowStore.HitIsLatest: entries are keyed by the call id itself, assuming hashes of ids and session fingerprints do not collide.
- ReasoningShadow.ReasoningShadowStore.StoreReasoning: one clock reading per operation; the code reads it before it takes the lock (`src/reasoning_shadow.rs:163`) and again to enforce the limits (`src/reasoning_shadow.rs:299`).
- What becomes of the shadow buffer when a stream ends (`src/anthropic.rs:2968-2990`): it is stored under the reply's ids, or the session is cleared if there were no tools.
- LogFiles.FileWriter.WriteLine: a call that does not return is reported as such and nothing is said of its state; files of listed segments are assumed not to be deleted by others.
- LogFiles.WriteKeeps: bytes that reach the disk in a failed write are not modelled.
- RetryHint.ClassifyUpstreamResponse: the retry hint's message and model, the date form of the `retry-after` header and the structured duration search are not modelled.
- Saturating and 64-bit arithmetic on sizes and clocks, except where a result above says otherwise.
- HTTP handlers, authentication, transport, proxies, timers, pings' timing, shutdown and configuration.
- Web search execution, the responses API, token counting and templates.
- Telemetry, summaries, metrics, logging queues and redaction.
- Billing-header stripping, fingerprints and prefix hashes in `src/cache.rs`, and effort and model-name mapping in `src/optimize.rs`: single branches.
- Document, search-result and media rendering inside tool results: opaque strings and parts.
