# GoModel, modelled and verified

GoModel is an AI gateway: it accepts chat requests in several dialects, sends
them to providers, and reloads its configuration without dropping its socket.
This project models six parts of it in Dafny 4.11 and proves what they are for.
`dafny verify dfyconfig.toml` checks everything.

**The Anthropic stream converter** (`Stream*.dfy`, `Response*.dfy`).
`StreamConverting.StreamConverter` is the object with its fields, buffer and
read loop; `StreamModel` is the meaning of each method on values. Proved about
every chunk sequence: the events form a well-bracketed message, content is
conserved, and a client that folds the events gets the message of the one-shot
translation. The last two hold under conditions on the upstream, and the lemmas
say exactly which:

- input deltas meet their open block if and only if no call is interleaved with
  something that opens a block;
- the content equals the one-shot content if and only if reasoning, text and
  tool calls come in that order (`StreamEquivalence`) and, for streams with replay
  state, the thinking the client received, signed block by block, is what the
  translation renders from the last replay list (`StreamOrder`), as it is when
  growing lists echo the reasoning (`StreamReplay`);
- the stop reason equals the one-shot stop reason if and only if, with tool
  calls, some finish reason follows a tool call or itself means tool use, and,
  without tool calls, a stop sequence comes with a finish reason. (Without one
  the stream ends with `stop_sequence` and the one-shot form with `end_turn`.)
- message ID, model and usage are equal if and only if the first chunk has an ID,
  it has a model or none was requested, and the counts are not negative and the
  cached tokens do not come from the prompt details alone (`StreamEnvelope`).

`StreamCounterexamples` and `InterleavedCallsMiss` hold a failing stream for each
of the first three. What the two sides agree on is stated without either:
`StreamStops` says which stop reason each finish reason asks for, `ResponseContent`
what each block of the translated message holds, and `StreamInputs` that a tool
block's input is the concatenation of the argument deltas.

**Lifecycle and reload** (`Lifecycle*.dfy`, `Socket.dfy`, `Dotenv.dfy`,
`AppShutdown.dfy`, `AppTeardown.dfy`). The goroutines are step relations whose runs are all
interleavings, with signals, failures and timeouts at any moment. Proved: each
application is asked to shut down exactly once, no send blocks, generations do
not overlap, the socket stays bound, and after a stop signal the loop returns,
given that start calls and rebuilds return: `InStart` and `Rebuilding` may take
their next step at any time, also when Shutdown timed out, so a server that
ignores the shutdown for ever is outside this claim.
The loop returns an error exactly when the last start call did or no listener was
left, a failed generation is the last, a reload never ends the process and a
failed rebuild never ends the watching (`LifecycleResult`).
The `.env` overlay has no memory of earlier files, and a rejected rebuild is
rolled back. Of any number of concurrent `Shutdown` calls one works, closing
everything once and in order; `AppTeardown` says by name what depends on what and
that nothing is closed before what depends on it.

**The prompt edit log** (`Prompt*.dfy`, `Base64.dfy`). `Prompts.Prompt` edits in
place, a message's parts being an array as a Go slice is; `PromptModel` is the
meaning on values, and `PromptLaws` what each edit changes and leaves alone.
Proved over every run of edits: the change record is
faithful, clones are independent, tool pairing is checked exactly, text targets
can be rewritten in any order, media round-trips. The parts arrays are on the
heap, and that clones share none of them is proved; the change record and the
tool calls and results inside a part are values here, so that they are not shared
holds by construction. Four promises hold under conditions, each with a
counterexample or an exact condition beside it:

- the record is faithful as long as an inserted message does not share its parts
  with another (`EditThroughSharedParts`);
- after edits on a paired conversation `Validate` is nil exactly when it is still
  paired with no call or result on both sides, or when every partner left behind
  is hidden in a message without an ID (`ValidateAfterRun`). So a nil `Validate`
  can miss a broken pair (`NamelessHolder`), and a second holder makes it complain
  about a paired conversation (`SecondHolderRemoved`). With one holder for every
  call and result it is right after every run of edits if and only if no message
  without an ID holds one half of a pair (`ExactOnEveryRun`). The host gives every
  message an ID (pluginapi/message.go:96-98), which rules that out;
- a listed target can be written back exactly when its IDs are non-empty and not
  preceded by equal ones (`TargetIsWritten`, `NamelessResultFails`);
- an image survives `SetMedia` and `DecodeMedia` exactly when its media type has
  no comma and no semicolon.

**Conversation reconstruction** (`EntryOrder.dfy`, `SessionConversation.dfy`,
`ThreadConversation.dfy`). Store lookups are functions with a contract: a page
holds the newest entries past the cursor, at most as many as asked, at least one
while any remain, and the first page reports the size of the session; a lookup by
link returns an entry with that link, and may answer differently each time,
fail, or meet the deadline. `Truncated` is exact except in one case: paging
stopped at an entry without ID or time, one short of the end, and the anchor is
not of the session. `HiddenEntry` is such a session, with a page of one entry
where forty were asked for; a store with full pages reaches the case only when
the hundredth of a hundred and one entries has no ID or time and the limit is over
a hundred (`HiddenNeedsManyEntries`).

**Request translation** (`Request*.dfy`). `RequestModel` gives the meaning of
each function, `RequestTranslation` the loops, `RequestModes` the agreement of
strict and lenient mode. The lenient result differs from the strict result on the
pruned request in one way: built-in tools only leave an empty list where no tools
leave none. A block that lenient mode ignores must still have a well-formed
`cache_control`, except in system content. `RequestMeaning` says, for every
accepted request, what each chat message holds in terms of the blocks' own members
and which requests are accepted, `RequestContent` the same for one block.

**Text cuts** (`Utf8.dfy`, `TextCuts.dfy`). Bytes are bytes, and UTF-8 is defined
from section 3 of RFC 3629. `Strings` holds what the string helpers of the Go
library promise.

Conventions: a Go string that is only compared, concatenated and trimmed is a
Dafny `string`; integers are unbounded, as no modelled code relies on their
width; sampling parameters are `real`. A Go error is a datatype value. What
goroutines share under one mutex is one step.

## Model

| member | source | states |
|---|---|---|
| `StreamConservation.ContentConserved` | internal/anthropicapi/stream.go:177-284 | For every chunk sequence: the text deltas concatenate to the upstream contents, the thinking deltas to the upstream reasoning, and the input deltas of each tool block to the arguments of its call; the call-to-block map is injective and covers exactly the calls seen; under growing replay lists every signed or redacted block is rendered exactly once, in order |
| `StreamGrammar.StreamWellFormed` | internal/anthropicapi/stream.go:112-147 | Every complete stream is message_start, then blocks numbered 0, 1, 2, ... of which at most one is open, then message_delta and message_stop, and nothing after; text, thinking and signature deltas meet the open block of their own type; no earlier moment shows the client anything but a prefix of that |
| `StreamInterleaving.InputOnOpenBlock` | internal/anthropicapi/stream.go:259-284 | Every input delta reaches its own block while it is open if and only if no call is interleaved with anything that opens a block |
| `StreamInterleaving.InterleavedCallsMiss` | internal/anthropicapi/stream.go:259-284 | A concrete stream of two interleaved calls whose second delta for the first call is sent to a closed block |
| `StreamInterleaving.UninterruptedIsContiguous` | internal/anthropicapi/stream.go:259-284 | The step-by-step reading of non-interleaved (the current block is the call's own) and the whole-run reading (nothing opens between two deltas of a call) are the same condition |
| `StreamEquivalence.StreamMatchesOneShot` | internal/anthropicapi/response.go:14-63 | For streams without replay state, a client that folds the events gets the content blocks of the one-shot translation of the assembled response if and only if reasoning, text and tool calls come in that order, and its stop reason and stop sequence if and only if the finish reason comes in time |
| `StreamOrder.AnyStreamMatches` | internal/anthropicapi/stream.go:177-257 | For every stream, in any order, with or without replay state: the client gets the one-shot content if and only if reasoning and replay blocks, text and tool calls come in that order and the thinking it received, signed block by block, is what the translation renders from the last replay list |
| `StreamOrder.ChunksShape` | internal/anthropicapi/stream.go:177-316 | Over every chunk sequence blocks once out of order stay out of order: thinking after text or a call, or text after a call, leaves the client with unsorted blocks |
| `StreamReplay.OrderedStreamMatches` | internal/anthropicapi/stream.go:177-257 | For every stream in order, whatever types the replay blocks name: the client gets the one-shot content if and only if the thinking it received is what the translation renders |
| `StreamReplay.EchoedStreamMatches` | internal/anthropicapi/stream.go:220-257 | With growing replay lists that echo the reasoning block by block and leave none of it unsigned the client gets the one-shot content |
| `StreamReplay.ChunksFollow` | internal/anthropicapi/stream.go:177-316 | After any ordered chunks the client holds the thinking blocks with their signatures and the redacted blocks, then the text, then the calls |
| `StreamReplay.StopAlwaysMatches` | internal/anthropicapi/stream.go:357-380 | For every stream, in order or not, with or without replay state, the stop reason and stop sequence are those of the one-shot translation if and only if the finish reason comes in time |
| `StreamStops.StreamStopsAs` | internal/anthropicapi/stream.go:205-210 | For every chunk sequence: the client gets max_tokens exactly for a last finish reason length or max_tokens without a tool call in time, tool_use exactly for a tool call in time or tool_calls or tool_use, a stop sequence or a normal end exactly for stop, content_filter, end_turn or none, and any other reason unchanged |
| `StreamStops.OneShotStops` | internal/anthropicapi/response.go:160-184 | For every reply the same, with every tool call in time; a stop sequence without a finish reason is not reported |
| `StreamStops.ChunksToolInTime` | internal/anthropicapi/stream.go:177-212 | A tool call is in time exactly when a finish reason comes in its own or a later choice |
| `StreamInputs.InputsAreReceived` | internal/anthropicapi/stream.go:259-284 | For every stream in order: each tool block of the client holds exactly the concatenated argument deltas of its call, and the one-shot input is their compact JSON, the same character for character when they are compact already, an empty object when they are blank or not JSON |
| `StreamInputs.MergedIsComplete` | internal/anthropicapi/stream.go:259-284 | The assembled response has one call for each index, with the arguments of all its deltas |
| `StreamEnvelope.EnvelopeIs` | internal/anthropicapi/stream.go:329-394 | Every complete stream carries the ID and model of the first chunk, or their fallbacks, and the last usage the upstream reported |
| `StreamEnvelope.EnvelopeMatchesOneShot` | internal/anthropicapi/response.go:25-27 | ID, model and usage equal those of the one-shot translation, each if and only if its condition on the upstream holds |
| `StreamCounterexamples.TextAfterTool` | internal/anthropicapi/stream.go:259-304 | A concrete stream with text after a tool call whose content differs from the one-shot content |
| `StreamCounterexamples.ToolWithoutFinish` | internal/anthropicapi/stream.go:209-211 | A concrete stream with a tool call and no finish reason: end_turn for the client, tool_use in the translation |
| `StreamCounterexamples.StopSequenceWithoutFinish` | internal/anthropicapi/stream.go:365-373 | A concrete stream with a stop sequence and no finish reason: stop_sequence for the client, end_turn in the translation |
| `StreamEquivalence.ChunksBuilt` | internal/anthropicapi/stream.go:177-316 | For an ordered stream the client's blocks are one thinking block, one text block and one block per call, with the gathered texts, names and inputs |
| `StreamEquivalence.ChunksRanks` | internal/anthropicapi/stream.go:288-316 | Out of order, the kinds of the blocks the client receives are not sorted, so they cannot be those of the one-shot form |
| `StreamEquivalence.ChunksStop` | internal/anthropicapi/stream.go:177-212 | What the stop state of the converter is after a run, in terms of the finish reasons and tool calls of the upstream |
| `StreamRefinement.GatherChunks` | internal/anthropicapi/stream.go:177-212 | The texts, calls, finish reason and stop sequence a run carries are those of the assembled response |
| `StreamConverting.StreamConverter.Read` | internal/anthropicapi/stream.go:112-147 | Read hands out the wire form of the conversion in order, without gaps or repeats, at most the asked number of bytes and at least one unless it ends or fails; end of file comes only when everything up to message_stop was handed out |
| `StreamConverting.StreamConverter.Fill` | internal/anthropicapi/stream.go:124-146 | The loop ends with bytes to deliver, with the complete conversion and nothing left, or with the upstream error |
| `StreamConverting.StreamConverter.Process` | internal/anthropicapi/stream.go:160-175 | One line: a chunk is handled, the sentinel and end of file finalize; the fields and the emitted events become those of the value-level step |
| `StreamConverting.StreamConverter.HandleOneChunk` | internal/anthropicapi/stream.go:177-212 | Handling a chunk in place is the value-level HandleChunk |
| `StreamConverting.StreamConverter.HandleChoice` | internal/anthropicapi/stream.go:181-211 | Handling one choice in place: reasoning, replay, text, tool calls, stop sequence and finish reason, in that order |
| `StreamConverting.StreamConverter.HandleThinkingReplay` | internal/anthropicapi/stream.go:220-257 | Renders the replay blocks not rendered yet, closing an open thinking block it signs; the counter moves to the end of the list |
| `StreamConverting.StreamConverter.HandleTool` | internal/anthropicapi/stream.go:259-284 | Opens a block for a new call and records it; sends the arguments, if any, to the recorded block |
| `StreamConverting.StreamConverter.Ensure` | internal/anthropicapi/stream.go:288-304 | Opens a text or thinking block unless one of that type is open |
| `StreamConverting.StreamConverter.Open` | internal/anthropicapi/stream.go:306-316 | Closes the open block and opens the next index |
| `StreamConverting.StreamConverter.Close` | internal/anthropicapi/stream.go:318-327 | Closes the open block, once |
| `StreamConverting.StreamConverter.EnsureStartedNow` | internal/anthropicapi/stream.go:329-354 | Emits message_start once, with the normalized ID and the model, or their fallbacks |
| `StreamConverting.StreamConverter.FinalizeNow` | internal/anthropicapi/stream.go:357-380 | Finalizes once: closes the open block, then message_delta with the stop reason and message_stop |
| `StreamConverting.StreamConverter.CloseBody` | internal/anthropicapi/stream.go:149-156 | Closing drops the buffered bytes, keeps everything else and returns the error of closing the upstream body; a second call changes nothing and returns none |
| `ResponseTranslation.FromChatResponse` | internal/anthropicapi/response.go:14-74 | The one-shot translation, for a missing response, one without choices and any other: content in the order thinking, text, tool calls, the stop reason with its stop-sequence rule, and the usage |
| `ResponseTranslation.ThinkingBlocks` | internal/anthropicapi/response.go:93-110 | Uses the replay state exactly when it holds blocks, and gives each unsigned thinking block an empty signature |
| `ResponseTranslation.RenderContent` | internal/anthropicapi/response.go:31-47 | Replay blocks win over reasoning text; then the text if any; then every tool call |
| `ResponseContent.ContentIs` | internal/anthropicapi/response.go:29-50 | Every reply: its replay blocks, signed, or its reasoning, then its text, then each tool call with its own ID, name, extra content and compact arguments, in that order and nothing else |
| `ResponseContent.NothingIs` | internal/anthropicapi/response.go:14-24 | A response without choices has no content and ends normally; no response gives an empty message |
| `ResponseContent.EnvelopeIs` | internal/anthropicapi/response.go:25-27 | The ID without white space and with the prefix msg_ once, the model and the four token counts |
| `ResponseContent.NormalizedTwice` | internal/anthropicapi/response.go:76-85 | Normalizing an ID again changes nothing |
| `Lifecycle.RunInv` | run/run.go:366-459 | The invariant of serve loop, watchers, teardowns and shutdown goroutines over every interleaving |
| `Lifecycle.StepInv` | run/run.go:366-495 | Every step of every goroutine keeps the invariant |
| `Lifecycle.ShutDownExactlyOnce` | run/run.go:366-393 | No application is ever asked twice to shut down; when serveUntilShutdown has returned, the first one and every one a rebuild returned was asked exactly once, and no watcher is still rebuilding |
| `Lifecycle.NoSendBlocks` | run/run.go:400-459 | Whoever is about to send finds the channel empty and open, and whoever is about to close finds it open |
| `Lifecycle.OneGenerationAtATime` | run/run.go:366-459 | No application is started twice, and one is started only after the server of every earlier generation has returned and its teardown is over |
| `Lifecycle.ReloadBuildsFirst` | run/run.go:400-422 | While a generation is served, only a reload that has already built its replacement ends it from inside |
| `Lifecycle.RebuildsDoNotOverlap` | run/run.go:400-422 | At most one rebuild runs at any time |
| `Lifecycle.SocketStaysBound` | run/run.go:366-393 | With a duplicated descriptor at least one descriptor of the socket is open until the loop has returned |
| `Lifecycle.ClosedLast` | run/run.go:366-393 | The socket is closed only after the loop has returned |
| `LifecycleResult.ReturnsWhatStartReturned` | run/run.go:366-393 | Over every run: the loop returns an error exactly when the last start call ended in one, or no listener could be taken after it |
| `LifecycleResult.NothingFollowsFailure` | run/run.go:382-390 | Once a start call has failed, or no listener could be taken, no generation and no other application follows, whatever was built in the meantime |
| `LifecycleResult.ReloadCarriesOn` | run/run.go:381-393 | A reload that built its replacement never ends the process: without stop signal and error the loop returns only when the last generation built none |
| `LifecycleResult.StillWatching` | run/run.go:400-422 | However many rebuilds failed, a generation that has built nothing and was not ended is rebuilding or ready for the next reload signal |
| `LifecycleProgress.EveryoneGoes` | run/run.go:366-495 | In every state of every run each goroutine can take its next step as soon as what it waits for has happened: a watcher its signal or the end, a teardown the end and then the Shutdown or the deadline, the loop the teardown, the watcher or the Shutdown |
| `LifecycleProgress.ReloadEndsGeneration` | run/run.go:405-418 | A watcher that has built a replacement and is through has ended its generation |
| `LifecycleProgress.HandedOutOnce` | run/socket.go:55-70 | Without a duplicate the first generation takes the listener itself, and it is handed out to no other |
| `LifecycleProgress.EitherWay` | run/run.go:366-393 | Start calls, rebuilds and listeners may succeed or fail, except that the listener held since the start is taken |
| `LifecycleResult.NoResultIsLost` | run/run.go:441-495 | Whoever waits for a Shutdown that has ended finds its result |
| `LifecycleResult.ReloadStaysPending` | run/run.go:400-422 | A reload signal is pending until a watcher takes it |
| `LifecycleTermination.BoundedAfterStop` | run/run.go:366-495 | After a stop signal the number of protocol steps is bounded, whatever the scheduling, with a fixed allowance per further reload signal |
| `LifecycleTermination.StepWeighs` | run/run.go:366-495 | After a stop signal every protocol step decreases the weight of the state |
| `LifecycleTermination.NeverStuck` | run/run.go:366-459 | Until the loop has returned some goroutine can take a step |
| `ListeningSocket.BoundSocket.ListenOn` | run/socket.go:32-51 | Leaves exactly one new descriptor open on success, and none on failure: the duplicate, or the listener where there is no duplicate |
| `ListeningSocket.BoundSocket.Next` | run/socket.go:54-69 | With a duplicate, a new descriptor of the same socket; without, the listener itself, once, and then a new socket |
| `ListeningSocket.BoundSocket.Close` | run/socket.go:72-82 | Closes what it holds and nothing else; again does nothing |
| `ListeningSocket.Serve` | run/socket.go:54-82 | However listeners are taken and closed, the duplicate keeps the first socket bound and every listener handed out is that socket |
| `Dotenv.NoMemory` | run/reload.go:52-112 | After any sequence of accepted, rejected and unreadable reloads the environment is the startup environment plus the keys of the latest used file that it did not define, and exactly those are owned |
| `Dotenv.OverlayForgets` | run/reload.go:52-112 | Applying a file over an earlier one gives what applying it alone gives |
| `Dotenv.RestoredIsBefore` | run/reload.go:102-111 | Writing back what was recorded restores the environment, whatever apply did; only a key whose write fails keeps what apply gave it |
| `Dotenv.DotenvFile.Apply` | run/reload.go:52-112 | Whatever the order of the map iterations, environment and ownership become those of the order-free overlay; an unreadable file changes nothing; the undo records every touched key once |
| `Dotenv.DotenvFile.SetAll` | run/reload.go:62-88 | The setting loop, for any iteration order |
| `Dotenv.DotenvFile.UnsetAll` | run/reload.go:90-100 | The unsetting loop, for any iteration order |
| `Dotenv.DotenvFile.UndoApply` | run/reload.go:102-111 | The undo closure restores ownership and every recorded key but those whose write fails, for any iteration order |
| `Dotenv.RunReloads` | run/reload.go:52-112 | The object run through any reloads ends in the overlay of the latest used file |
| `Dotenv.Process.Configure` | run/run.go:327-346 | The setup hook is due exactly once, first of all; every later configuration goes to the reload hook |
| `Dotenv.Process.Rebuild` | run/run.go:295-316 | A rejected rebuild, at whichever step, leaves ownership, default logger and configuration as they were, and the environment but for keys whose write fails during the rollback; an accepted one installs all of them |
| `Dotenv.Process.Rollback` | run/run.go:299-302 | The rollback closure puts back logger, environment and ownership |
| `AppShutdown.RunInv` | internal/app/app.go:210-342 | The invariant of any number of concurrent startServer and Shutdown calls |
| `AppShutdown.ClosedOnceInOrder` | internal/app/app.go:268-342 | At most one Shutdown call works; closers run at most once, in the teardown order; once it is done every subsystem there is was closed, storage last, failures notwithstanding |
| `AppShutdown.WorkerReports` | internal/app/app.go:268-342 | The call that did the work returns an error exactly when a step failed; the others do nothing |
| `AppShutdown.PublishGoesThrough` | internal/app/app.go:210-257 | The server's result is sent into an empty open channel, and closed once |
| `AppShutdown.RegisteredServerStopped` | internal/app/app.go:268-342 | A Shutdown that finds a server registered cancels it and has that server's own result, or has timed out, before it closes the server's resources |
| `AppShutdown.PresentIncreases` | internal/app/subsystems.go:110-141 | The subsystems to close are exactly those present, in the fixed order |
| `AppShutdown.StorageIsLast` | internal/app/subsystems.go:110-141 | The storage comes last in the teardown order |
| `AppTeardown.ClosedInDependencyOrder` | internal/app/subsystems.go:102-140 | In every state of every run: before a subsystem is closed every one there is that writes to it, uses it, reconfigures it or emits to it has been closed, and none is closed after it |
| `AppTeardown.OrderRespects` | internal/app/subsystems.go:110-141 | Runtime settings before everything they reconfigure, providers before the strategies they select through, producers before the stores that buffer for them, budgets and rate limits before the usage they account for, telemetry after all that emit, storage last |
| `AppTeardown.OrderCovers` | internal/app/subsystems.go:106-108 | A subsystem is in the order exactly when it is registered as owned by Shutdown |
| `AppTeardown.OwnedClosedOnce` | internal/app/app.go:325-334 | When the work is done each subsystem owned by Shutdown that is there was closed exactly once, and no other |
| `AppTeardown.StagesInOrder` | internal/app/app.go:281-326 | Before the closers the call that works has ended the streams, looked up, cancelled and awaited the server and released its resources, in this order |
| `AppTeardown.EveryoneGoes` | internal/app/app.go:210-342 | In every state of every run each startServer and Shutdown call can take its next step as soon as what it waits for has happened, at the deadline at the latest |
| `AppTeardown.ReportsEveryFailure` | internal/app/app.go:299-342 | The call that worked returns an error exactly when waiting timed out, the server ended in error, or its resources or a subsystem could not be closed |
| `AppShutdown.Registry.RegisterSubsystem` | internal/app/subsystems.go:85-87 | Appends to the list of what was built |
| `AppShutdown.Registry.Unwind` | internal/app/subsystems.go:92-100 | Runs every closer there is, last built first, past failures; reports errors exactly when one failed |
| `Prompts.Prompt.Message` | pluginapi/prompt.go:152-159 | Finds the first message with the ID, or none |
| `Prompts.Prompt.SetText` | pluginapi/prompt.go:163-177 | Replaces the text of one text part and marks the message; unknown message, missing part and non-text part are errors that change nothing; a message that shares the parts changes with it |
| `Prompts.Prompt.SetToolArguments` | pluginapi/prompt.go:181-200 | Replaces the arguments of the first matching call, in place, also where messages share parts; invalid JSON is refused after the message lookup and before the call lookup |
| `Prompts.Prompt.SetToolResult` | pluginapi/prompt.go:204-220 | Replaces the content of the first matching result, in place, also where messages share parts |
| `Prompts.Prompt.SetMedia` | pluginapi/media.go:39-74 | Replaces an image's or audio part's payload, in place; each refused input changes nothing |
| `Prompts.Prompt.Insert` | pluginapi/prompt.go:224-237 | Inserts at the clamped position under a fresh ID and marks it inserted; the messages keep separate parts exactly when the new one brings parts of its own |
| `Prompts.Prompt.Append` | pluginapi/prompt.go:240-242 | Insert at the end |
| `Prompts.Prompt.Remove` | pluginapi/prompt.go:249-269 | Removes the first message with the ID, forgets it if it was inserted, otherwise marks and keeps it, and names the partner left dangling |
| `Prompts.Prompt.NewID` | pluginapi/prompt.go:451-459 | The search for a generated ID terminates at the next number not in use |
| `PromptModel.NextFree` | pluginapi/prompt.go:451-459 | The next generated ID is no ID in the conversation or the change record |
| `PromptModel.BlockedShrinks` | pluginapi/prompt.go:451-459 | Every number tried and in use is one fewer left to try |
| `PromptModel.NewNameInjective` | pluginapi/prompt.go:454 | Different numbers give different generated IDs |
| `Prompts.Prompt.SetParam` | pluginapi/prompt.go:275-291 | Records the parameter and updates the typed field for the three modelled names when a value of that dynamic type converts |
| `Prompts.Prompt.Reset` | pluginapi/prompt.go:402-405 | Clears the record and the removed messages, and nothing else |
| `PromptLaws.MarkIs` | pluginapi/changes.go:36-54 | Inserted and removed marks are final, edited is the weakest, and replaced does not hide that a message was inserted; every mark counts one edit |
| `PromptLaws.SetTextIs` | pluginapi/prompt.go:163-176 | Only the named text part of the first message with the ID changes, one edit is recorded, a mark that is there stays; an unknown message, a part out of range and a part that is no text are refused and change nothing |
| `PromptLaws.SetToolArgumentsIs` | pluginapi/prompt.go:181-200 | With valid JSON only the arguments of the first call with the ID change; every refusal names what is missing and changes nothing |
| `PromptLaws.SetToolResultIs` | pluginapi/prompt.go:204-220 | Only the content of the first result of the call changes |
| `PromptLaws.SetMediaIs` | pluginapi/media.go:39-71 | An image gets a data URI of its media type, an audio part the bare payload, both decoding to the data, nothing of the old medium is left and nothing else changes; the media type must be of the kind of the part |
| `PromptLaws.SetTargetTextIs` | pluginapi/target.go:66-89 | A target in a result changes that result's content in the first result of its call, any other target is a text part |
| `PromptLaws.InsertIs` | pluginapi/prompt.go:224-242 | The message stands at the place asked for, or the nearest there is, under an ID that is new, and every other message keeps its order |
| `PromptLaws.RemoveIs` | pluginapi/prompt.go:249-269 | Only the first message with the ID goes; one that was inserted leaves no trace, any other is kept and marked removed |
| `PromptLaws.DanglingPartIs` | pluginapi/prompt.go:418-432 | No error means that no part has a partner left; otherwise the error names the first part that has one and its partner |
| `PromptLaws.SetParamIs` | pluginapi/prompt.go:275-291 | The value is recorded as given; max_tokens, temperature and top_p take the number it stands for, without its fraction for max_tokens, and are left alone when it stands for none |
| `PromptLaws.ResetIs` | pluginapi/prompt.go:402-405 | The record and the removed messages are cleared and nothing else |
| `Prompts.Prompt.Validate` | pluginapi/prompt.go:409-416 | Reports the first broken pair among the removed messages |
| `Prompts.Prompt.FindDangling` | pluginapi/prompt.go:418-432 | The first call or result of a removed message whose partner is still there |
| `Prompts.Prompt.FindHolder` | pluginapi/prompt.go:434-449 | The first message that holds the call, or its result |
| `Prompts.Prompt.Clone` | pluginapi/prompt.go:302-323 | A fresh prompt with the same value and change record, sharing no parts with the original |
| `Prompts.CloneMessages` | pluginapi/prompt.go:325-335 | Fresh parts for every message, equal in value |
| `Prompts.EditBoth` | pluginapi/prompt.go:298-361 | Edits on two prompts that share no parts, in any interleaving: each side ends as its own edits alone would leave it |
| `Prompts.EditPromptAndClone` | pluginapi/prompt.go:302-361 | The same for a prompt and its clone |
| `Prompts.EditThroughSharedParts` | pluginapi/prompt.go:224-237 | Inserting a message that shares its parts with an original, then editing the copy, changes the original without a mark |
| `PromptFaithful.RecordStaysFaithful` | pluginapi/prompt.go:161-291 | After any run of edits since Reset: IDs are distinct, marks are true and complete, unmarked messages are the originals, surviving originals keep their order, the removed list is exactly the removed originals, and a record that is not dirty means nothing changed |
| `PromptFaithful.RecordDecides` | pluginapi/changes.go:22-54 | Under a faithful record "removed" marks exactly the originals missing, "inserted" exactly the messages that are no originals, and an unmarked message equals its original |
| `PromptFaithful.FreshId` | pluginapi/prompt.go:451-459 | A generated ID is neither present, nor an original's, nor marked |
| `PromptFaithful.InsertKeeps` | pluginapi/prompt.go:224-237 | Insert keeps the record faithful |
| `PromptFaithful.RemoveKeeps` | pluginapi/prompt.go:249-269 | Remove keeps the record faithful |
| `PromptFaithful.PartEditKeeps` | pluginapi/changes.go:36-54 | An in-place edit of a part keeps the record faithful: a mark "inserted" is not weakened |
| `PromptFaithful.ParamKeeps` | pluginapi/changes.go:56-63 | SetParam keeps the record faithful: an unmarked parameter is the original one |
| `PromptFaithful.ResetIsFaithful` | pluginapi/prompt.go:402-405 | Right after Reset the record is faithful |
| `PromptPairing.ValidateMeans` | pluginapi/prompt.go:409-449 | For every prompt Validate is nil exactly when no removed call or result left its partner behind, or every partner left behind is hidden in a message without an ID; it tells broken pairs exactly if and only if they are not hidden |
| `PromptPairing.HolderIsFirst` | pluginapi/prompt.go:434-449 | The lookup gives the ID of the first message that holds the call or the result, and an empty one when none does |
| `PromptPairing.ValidateAfterRun` | pluginapi/prompt.go:409-449 | From a paired conversation, after any edits that insert no tool part, Validate is nil exactly when the conversation is still paired and no call or result has one holder removed and another present, or when every partner left behind is hidden |
| `PromptPairing.ValidateIsExact` | pluginapi/prompt.go:409-449 | With one holder for every call and result at Reset, Validate is nil exactly when the conversation is still paired, if and only if no partner left behind is hidden |
| `PromptPairing.ExactOnEveryRun` | pluginapi/prompt.go:409-449 | With one holder for every call and result, Validate is nil exactly when the conversation is paired after every run of edits, if and only if at Reset no message without an ID holds one half of a pair without the other |
| `PromptPairing.HalfIsMissed` | pluginapi/prompt.go:434-449 | For every conversation with such a half, the edits after which Validate is nil on an unpaired conversation |
| `PromptPairing.SecondHolderRemoved` | pluginapi/prompt.go:434-449 | With two holders of one call Validate complains about a conversation that is still paired |
| `PromptPairing.NamelessHolder` | pluginapi/prompt.go:434-449 | A holder without an ID is not seen: Validate is nil although a pair is broken |
| `PromptPairing.RunKeepsTools` | pluginapi/prompt.go:161-291 | Calls and results are conserved over any such run: each is present or removed, as at Reset |
| `PromptPairing.RunKeepsUnique` | pluginapi/prompt.go:161-291 | One holder for every call and result stays so over any such run |
| `PromptPairing.Repaired` | pluginapi/prompt.go:244-269 | Removing the reported partner again and again ends with Validate nil |
| `PromptPairing.Repair` | pluginapi/prompt.go:67-78 | The repair loop on the object |
| `PromptPairing.RepairKeepsOthers` | pluginapi/prompt.go:67-78 | Repairing only removes, and keeps every message that holds no tool part |
| `PromptPairing.RepairedIsPaired` | pluginapi/prompt.go:67-78 | After the repair the conversation is fully paired again, with no call or result on both sides, if and only if nothing is left hidden; nothing is when every message that holds a tool part has an ID |
| `PromptTargets.PlacesAre` | pluginapi/target.go:37-61 | The listed places are exactly the text parts of the wanted roles, inside tool results included, each once, in conversation order |
| `PromptTargets.TargetsAre` | pluginapi/target.go:37-60 | Each target names the message, the part, the call when the text is in a result, and the text as it is |
| `Prompts.Prompt.TextTargets` | pluginapi/target.go:37-61 | The listing loops return the targets of those places |
| `Prompts.Prompt.SetTargetText` | pluginapi/target.go:66-90 | Writes one target back through SetText or SetToolResult, in place, with each error case |
| `Prompts.Prompt.MadeSeparately` | pluginapi/prompt.go:161-220 | Where no two messages share parts an edit in place leads to the prompt the edit on values gives |
| `PromptTargets.TargetIsWritten` | pluginapi/target.go:66-90 | A listed target is written where it was listed, whatever the text, exactly when its message ID is the first of its kind and its call ID is non-empty and the first of its kind in the message |
| `PromptTargets.AnyOrderRewrites` | pluginapi/target.go:33-90 | Rewriting every listed target in any order: all calls succeed, the targets listed afterwards differ in their texts only, nothing else in the conversation changes, and exactly the messages holding targets gain a mark |
| `PromptTargets.DistinctReach` | pluginapi/target.go:66-90 | Distinct message IDs and distinct non-empty call IDs per message are enough for every target to be reached |
| `PromptTargets.NamelessResultFails` | pluginapi/target.go:66-68 | A target in a result without a call ID cannot be written: the call fails and changes nothing |
| `PromptTargets.ErasedPlaces` | pluginapi/target.go:37-61 | What is listed does not depend on the texts |
| `PromptMedia.MediaRoundTrip` | pluginapi/media.go:14-94 | After a successful SetMedia, DecodeMedia returns the same bytes and the trimmed media type: always for audio, and for an image if and only if the media type holds no comma and no semicolon |
| `PromptMedia.AudioRoundTrip` | pluginapi/media.go:18-27 | Encoded audio cannot look like a data URI |
| `PromptMedia.PlainURI` | pluginapi/media.go:76-94 | A data URI with a plain media type decodes to it and to the payload |
| `PromptMedia.OddURI` | pluginapi/media.go:76-94 | With a comma or a semicolon in the media type it does not |
| `PromptMedia.ReadIsURI` | pluginapi/media.go:76-99 | Whatever is read as a data URI has a slash in its type and base64 among its parameters, and its payload decodes to the data |
| `PromptMedia.URIIsRead` | pluginapi/media.go:76-99 | Every such URI is read, with its type and its data |
| `Base64.RoundTrip` | pluginapi/media.go:61 | Decoding undoes encoding, on alphabet and padding symbols only |
| `Base64.SymbolIs` | pluginapi/media.go:61 | The alphabet of section 4 of RFC 4648: the letters A to Z, the letters a to z, the digits, plus and slash, in this order |
| `Base64.EncodedGroup` | pluginapi/media.go:61 | Three bytes become four symbols with the same twenty-four bits, the first byte first |
| `Base64.EncodedTail` | pluginapi/media.go:61 | One or two bytes left over are filled up with zero bits and padded |
| `Base64.DecodesWellFormed` | pluginapi/media.go:91-94 | Exactly the padded groups of alphabet symbols are read, line breaks aside |
| `Base64.BreaksAreSkipped` | pluginapi/media.go:91-94 | A line break, wherever it stands, changes nothing |
| `SessionConversation.FetchEntries` | internal/auditlog/conversation_helpers.go:31-74 | Given the paging contract the loop terminates and fetches the newest entries of the session: the limit, all of them, or up to an entry that gives no cursor |
| `SessionConversation.AddUnseen` | internal/auditlog/conversation_helpers.go:56-64 | For any page: the result is the entries followed by the page's entries whose non-empty ID was not seen before, on that page or an earlier one, in order |
| `SessionConversation.UnseenNamedOnce` | internal/auditlog/conversation_helpers.go:56-64 | Whatever the store returns, no non-empty ID is listed twice |
| `SessionConversation.NothingRepeats` | internal/auditlog/conversation_helpers.go:56-64 | A page of the session past what was fetched repeats nothing |
| `SessionConversation.RemainingAfter` | internal/auditlog/conversation_helpers.go:68-73 | Past the cursor of an entry remain exactly the entries after it |
| `SessionConversation.BuildSession` | internal/auditlog/conversation_helpers.go:21-115 | The result is the view of the fetched entries, and an empty one without an anchor |
| `SessionConversation.ViewIsBounded` | internal/auditlog/conversation_helpers.go:76-108 | The view is ascending in (time, ID), names no entry twice, is no longer than the clamped limit, holds the anchor, and shows only entries of the session and the anchor |
| `SessionConversation.ViewKeepsClosest` | internal/auditlog/conversation_helpers.go:94-108 | Of the fetched entries and the anchor, in order, the view shows all that fit the limit, a stretch that leaves out nothing closer to the anchor than what it shows |
| `SessionConversation.TruncatedMeansIncomplete` | internal/auditlog/conversation_helpers.go:93-108 | Truncated is true exactly when some entry of the session is not shown, but for one case, which is characterised exactly |
| `SessionConversation.TruncatedIsRight` | internal/auditlog/conversation_helpers.go:93-108 | That case needs an anchor outside the session and an entry that gives no cursor |
| `SessionConversation.HiddenEntry` | internal/auditlog/conversation_helpers.go:93-108 | A concrete session of two entries, paged one at a time, where Truncated is false although an entry is missing |
| `SessionConversation.HiddenNeedsManyEntries` | internal/auditlog/conversation_helpers.go:36-73 | With full pages that needs a limit over a hundred and a session of a hundred and one entries whose hundredth gives no cursor |
| `EntryOrder.SortedAscending` | internal/auditlog/conversation_helpers.go:87-92 | Entries with distinct IDs come out strictly ascending |
| `EntryOrder.SortedHolds` | internal/auditlog/conversation_helpers.go:87-92 | Sorting is a permutation |
| `EntryOrder.SortedIdentity` | internal/auditlog/conversation_helpers.go:211-216 | Sorting what is ascending changes nothing |
| `EntryOrder.LexLessIs` | internal/auditlog/conversation_helpers.go:87-92 | IDs compare by the first place where they differ, a prefix first |
| `EntryOrder.Clamp` | internal/auditlog/conversation_helpers.go:286-294 | The given limit when it is between 1 and 200, 40 below and 200 above |
| `ThreadConversation.WalkBack` | internal/auditlog/conversation_helpers.go:161-184 | The ancestors in front of the anchor: a linked segment without repeats, complete unless the limit or the deadline stopped it |
| `ThreadConversation.WalkForward` | internal/auditlog/conversation_helpers.go:186-209 | The same for the continuations after it |
| `ThreadConversation.BuildThread` | internal/auditlog/conversation_helpers.go:143-230 | Even on cyclic links the walk ends; it is one contiguous linked segment of distinct entries with the anchor, within the limit, complete on both ends unless limit or deadline stopped it; the shown entries are that segment in ascending order, as walked when times increase along the links |
| `ThreadConversation.SegmentSorted` | internal/auditlog/conversation_helpers.go:211-223 | Sorting keeps the segment's entries, and is the identity when times increase along the links |
| `ThreadConversation.BuildConversation` | internal/auditlog/conversation_helpers.go:117-131 | An entry of a session is shown with the view of the session's newest entries, any other with its walked thread; either way ordered, distinct, bounded and with the anchor |
| `RequestModes.LenientAccepts` | internal/anthropicapi/request.go:69-133 | Lenient accepts a request if and only if strict accepts it with the unsupported blocks and built-in tools deleted at every level and no deleted block has a malformed cache_control |
| `RequestModes.LenientIsStrictOnPruned` | internal/anthropicapi/request.go:69-133 | And both then build the same chat request, except that a request with built-in tools only gets an empty tool list instead of none |
| `RequestModes.StrictAccepts` | internal/anthropicapi/request.go:81-133 | Strict accepts if and only if lenient does and there is nothing to delete, and then the results are the same |
| `RequestModes.MessagesModes` | internal/anthropicapi/request.go:143-186 | The two modes agree on the messages |
| `RequestModes.BlocksModes` | internal/anthropicapi/request.go:195-265 | The two modes agree on the blocks of a message |
| `RequestModes.ContentModes` | internal/anthropicapi/request.go:652-687 | The two modes agree on the content of a tool result |
| `RequestModes.SystemModes` | internal/anthropicapi/request.go:580-620 | The two modes agree on system content, with no condition on what is deleted |
| `RequestModes.ToolsModes` | internal/anthropicapi/request.go:723-768 | The two modes agree on the tools |
| `RequestTools.ToolsSurvive` | internal/anthropicapi/request.go:143-288 | In both modes every tool_use of the request is one tool call and every tool_result one tool message, with its own members, in the original order, and there are no others |
| `RequestTools.ToolMessagesFirst` | internal/anthropicapi/request.go:195-288 | The tool messages of a message come first, then at most one message of the original role with every tool call |
| `RequestMeaning.RequestHolds` | internal/anthropicapi/request.go:81-133 | Every accepted request, strict or lenient: its settings, its custom tools, its system prompt and message by message its texts, images, documents, search results, tool calls, tool results and thinking, each with its own members, in order, and nothing else |
| `RequestMeaning.RequestAccepted` | internal/anthropicapi/request.go:81-133 | A request is accepted exactly when its model, budget, messages, marks, system prompt, blocks, sources and tools are those the dialect knows |
| `RequestMeaning.FirstBadMessage` | internal/anthropicapi/request.go:156-190 | The error names the first message that is not accepted |
| `RequestMeaning.ConversationHolds` | internal/anthropicapi/request.go:143-193 | The chat messages are the system prompt and then what each message says |
| `RequestMeaning.BlockMessageHolds` | internal/anthropicapi/request.go:195-288 | One tool message for each result, then one message with the words joined by line breaks, or one part for each block when something is marked or attached, every tool call and the thinking |
| `RequestMeaning.ToolResultHolds` | internal/anthropicapi/request.go:652-687 | A tool result keeps its text and its attachments, and is accepted exactly when its blocks are |
| `RequestMeaning.SystemHolds` | internal/anthropicapi/request.go:580-620 | One system message, trimmed, unless blank; with a mark somewhere each text keeps its own |
| `RequestMeaning.SettingsHold` | internal/anthropicapi/request.go:111-131 | Model, budget, sampling, user, effort, tool choice, parallel calls, stop sequences and mark of the chat request, each from its member |
| `RequestMeaning.ToolsHold` | internal/anthropicapi/request.go:723-768 | Each custom tool in order with its name, description, schema and mark, and exactly which tools are accepted |
| `RequestContent.PayloadIs` | internal/anthropicapi/request.go:293-414 | A text, image, document or search result block gives one part with its own text, data or address and its mark, none when it has nothing to say, and is refused exactly when its source or text is not of a kind the dialect knows |
| `RequestContent.BodyIs` | internal/anthropicapi/request.go:420-438 | The non-empty texts of the text blocks, joined by line breaks |
| `RequestTranslation.ToChatRequest` | internal/anthropicapi/request.go:81-133 | The translation with its error cases in order |
| `RequestTranslation.ConvertMessages` | internal/anthropicapi/request.go:143-186 | The loop over system prompt and messages |
| `RequestTranslation.ConvertBlockMessage` | internal/anthropicapi/request.go:195-288 | The loop over the blocks of a message |
| `RequestTranslation.SystemContent` | internal/anthropicapi/request.go:580-620 | The loop over system blocks; structured only when a block carries cache_control |
| `RequestTranslation.ToolResultContent` | internal/anthropicapi/request.go:652-687 | The loop over the blocks of a tool result |
| `RequestTranslation.ConvertTools` | internal/anthropicapi/request.go:723-768 | The loop over the tools |
| `RequestTranslation.TextBlocksText` | internal/anthropicapi/request.go:420-438 | The loop over nested text blocks |
| `Utf8.DecodeEncoded` | pluginapi/stream.go:195 | Decoding the encoding of a scalar value (section 3 of RFC 3629) gives it back, with its size |
| `Utf8.LastRune` | pluginapi/stream.go:194-197 | Decoding the last rune of a text finds the rune it ends in, whatever stands before it |
| `Utf8.DecodedIsEncoding` | pluginapi/stream.go:194-197 | Bytes are read as a rune only when they are its encoding; anything else gives the replacement character and one byte |
| `Utf8.LastDecodedIsEncoding` | pluginapi/stream.go:194-197 | The last rune read is what the text ends in, or the replacement character and one byte |
| `Utf8.EncodeAllInjective` | pluginapi/stream.go:194-197 | A valid text reads as one sequence of runes only |
| `Utf8.RuneOfByte` | internal/auditlog/auditlog.go:449-451 | Every byte belongs to one rune, and starts it exactly at its offset |
| `TextCuts.CutTailDropsRunes` | pluginapi/stream.go:192-197 | On valid UTF-8 the loop drops exactly the last runes, as many as asked or all |
| `TextCuts.StreamState.Append` | pluginapi/stream.go:166-175 | Counts every event; a text delta is appended to its choice, and no other choice changes |
| `TextCuts.StreamState.ReplaceTail` | pluginapi/stream.go:183-201 | Counts every event; a text delta replaces the tail of its choice, and no other choice changes |
| `TextCuts.StreamState.Builder` | pluginapi/stream.go:203-213 | Creates an empty text for a new choice and changes none |
| `TextCuts.StepRefines` | pluginapi/stream.go:166-201 | One recorded step on bytes is the step on runes |
| `TextCuts.RecordAll` | pluginapi/stream.go:166-201 | After any run of steps the text of each choice is the encoding of the rune-level fold |
| `TextCuts.TruncateErrorMessage` | internal/auditlog/auditlog.go:441-453 | The loop cuts at the nearest rune start at or before the limit |
| `TextCuts.CutKeepsRunes` | internal/auditlog/auditlog.go:441-453 | A valid message is cut after whole runes, as many as fit 2048 bytes; at most three bytes more than necessary are lost |
| `TextCuts.StoredErrorFits` | internal/auditlog/auditlog.go:441-453 | At most 2048 bytes are stored: a valid message that fits is kept whole, any other loses only the runes that do not fit |

## Left out

- JSON: requests, chunks, bodies and content blocks are already parsed; raw JSON members are opaque values, `json.Valid` and `json.Compact` are parameters, tool input is given in its compact form, and failures of marshalling values the code itself built are not modelled.
- `StreamEquivalence.StreamMatchesOneShot`: streams that carry replay state are excluded, and so are message ID, model and usage; `StreamOrder` and `StreamEnvelope` cover them.
- `StreamOrder.AnyStreamMatches`: a last replay list with blocks that are neither thinking nor redacted thinking is excluded; `StreamReplay.OrderedStreamMatches` covers it for streams in order.
- The numeric types of raw usage values: the counts are integers.
- Wire format of a server-sent event: a parameter that renders each event as at least one byte.
- The swagger base path and the HTTP timeouts, which a failed reload does not restore; the theorem is about environment, default logger and configuration.
- `Dotenv.RunReloads`: set and unset calls that fail are left to the single-call contracts of `Apply`, `UndoApply` and `Rebuild`, which say what each failing key keeps.
- `AppShutdown.RegisteredServerStopped`: assumes the server was registered before Shutdown looks for it; a server registered after that moment is not stopped by it, and a second startServer call that registers after the first result was published can lose its registration to the Shutdown that forgets the first.
- Memory model: statements under one mutex are one step and channel operations are atomic; reads of unshared variables take no step.
- Real signals, descriptors, clocks, `os.Setenv` and the `.env` parser: nondeterministic steps, a map and inputs.
- The PID file, reload-signal sending and the command line of run: plumbing.
- `Prompts.Prompt.Clone`: the change record and the tool calls and results inside a part are values, so their copying is not shown; tools, raw body and the JSON values of parameters are not copied member by member.
- `Prompts.CloneMessages`: the same for the tool calls and results inside a part.
- Nil and empty part lists are not told apart, except the chat request's tool list.
- `Prompts.Prompt.SetParam`: a float is a real; overflow of a float converted to an int and the rounding of an int converted to a float are not modelled.
- `LifecycleTermination.NeverStuck`: takes the start call and the rebuild as able to return.
- Completion edits, decisions and hooks of the plugin interface: easy members beside the prompt.
- The session is one snapshot while it is paged; entries that arrive during paging are newer than every cursor.
- `SessionConversation.BuildSession`: the user-path filter and the projection options of the query are the store's business.
- Search of a stored body for its link fields: the two fields are given, trimming included.
- Providers, HTTP handlers, SQL and Mongo stores, rate limits, budgets, caching, balancing, dashboards, authentication and plugin loading.
- `AppTeardown.ClosedInDependencyOrder`: subsystems without a dependency between them, such as tagging and users, may close in either order as far as it says.
