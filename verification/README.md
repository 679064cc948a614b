# Verified model of the confidential model router

This project models the stateful core of the router in Dafny and proves what every run of it keeps. The router
terminates TLS, forwards OpenAI-style requests to attested model enclaves, executes built-in tool calls for the
client, and bills each response.

The files, by component:

- `ResponsesModel`, `ResponsesJson`, `ResponsesStream`: the bounded tool loop of the Responses endpoint in its two
  forms. The model servers are an arbitrary script of replies, the tool an arbitrary function that may fail. The
  loops are proved against closed forms of transcript, public output, usage, requests, bills and client events.
- `ResponsesTranscript`, `ResponsesRefinement`, `ResponsesEvents`, `ResponsesForwarding`, `ResponsesDecisions`,
  `ResponsesLeaks`: what holds over whole runs of those loops. No request carries an unanswered call, output and
  tokens are conserved, the client sees one well-formed story per tool call and everything else verbatim, the runs
  go on and end exactly as the replies say, and the streaming loop refines the other one.
- `Sse`, `Extractor`: lines, the event printer and parser, and the filter that reads usage out of a stream.
- `Admission`: the attestation protocol, as critical sections and as interleaved steps with arbitrary configs and
  failures.
- `RateLimit`: the windowed, lazily evicted counter against a plain count over the history.
- `Proxy`, `Collector`: billing of one response, and the batching queue with its reused backing array.
- `ChatCalls`: chat tool calls reassembled from deltas, against the JSON handler.
- `Sandboxes`, `Poller`: sandbox creation and the overload poller as interleaved steps.
- `Rewriting`: the two request rewriting pipelines.
- `Text`, `Usage`: trimming, optional values and token counts.

Code that updates fields is a class whose methods are proved against a function of the old state; concurrency is a
step function over those critical sections, and "every run" means every sequence of steps. Steps that are not
enabled leave the state alone. Identifiers and payloads are strings (of bytes in `Sse`, `Extractor` and `Proxy`);
decoders of JSON payloads are arbitrary functions.

## Findings

Promises that do not hold in general, with the exact condition under which they do:

- Two calls can race for the sandbox, and the loser's is never deleted (`Sandboxes.RaceLeaks`); `LeftAfterClose`
  says exactly what a successful close leaves, including sandboxes with a blank id and failed cleanups.
- The round trip through the event printer fails for a type with a line feed whose later lines read as data
  (`Sse.RoundTripExactly`, `Sse.HarmfulKindExists`).
- A data line that ends in CR besides its line end loses that CR in the filter (`Extractor.FilteredStreamParses`,
  `Extractor.TrailingCrIsLost`).
- A body whose usage is read when it is closed is billed at every close (`Proxy.BilledOnceExactly`, `Proxy.BilledTwice`).
- The JSON chat handler looks for function-typed calls only, the stream handler does not look at types
  (`ChatCalls.SameCallsExactly`, `ChatCalls.UntypedCallIsMissed`).
- A gauge that is not a number takes the overload flag down while requests are rejected
  (`Poller.FlagAgreesExactly`).
- Eviction in the tracker tolerates clocks that run back by a minute and a nanosecond, no more
  (`RateLimit.EvictionUnobservable`, `RateLimit.MoreSkewIsObservable`).
- The tracker, called with an API key that contains a NUL byte, can put it into the bucket of another one, but only
  if a model name has a NUL byte too; an HTTP header never delivers such a key
  (`RateLimit.BucketIsPrivateExactly`, `ModelNamesSuffice`, `BucketKeyCollides`).
- A later hop of the streaming loop that used no tool and had no `response.completed` object makes the handler write
  into a nil map (`ResponsesLeaks.CrashesExactly`, `CrashHappens`); without streaming a later body that is the
  literal `null` does (`JsonCrashesExactly`, `JsonCrashHappens`).
- A stream hides its built-in calls only if the model server announces them in the same hop: arguments before an
  announcement, after one under a blank id or in a later hop, and completions with calls never announced, reach the
  client (`ResponsesLeaks.NoRawCallLeaksExactly`, `UnannouncedCallLeaks`, `BlankIdentifierLeaks`,
  `LaterFragmentLeaks`). So does a call in the final response whose hop never showed the tool in use
  (`FinalResponseShowsCallExactly`, `UnannouncedCallInAnswer`).

## Model

| member | source | states |
|---|---|---|
| `Usage.UsageAccumulator.Add` | openaiapi/util.go:24-38 | one report changes the running counters by its normalized values, the total by its own or by prompt plus completion; no report changes nothing |
| `Usage.NormalizedExactly` | tokencount/extractor.go:28-35 | a report's prompt is its own counter, or its input where that is zero and the input positive, and its completion likewise from the output; its total is left as it is |
| `Usage.AccumulatingSums` | openaiapi/util.go:24-38 | accumulating a list of reports adds up, counter by counter, the raw prompt or input, completion or output, and total or both |
| `Text.TrimTwice` | openaiapi/util.go:192-195 | trimming is idempotent, so an identifier is the same string however often it is read out of an event or item |
| `Text.TrimExactly` | openaiapi/util.go:192-195 | trimming removes white space around the text and nothing else, and leaves nothing exactly if there is only white space |
| `ResponsesModel.UpstreamInvoker.Do` | manager/upstream.go:56-71 | request n gets the n-th reply of the script and is recorded as sent |
| `ResponsesModel.UpstreamInvoker.RecordUsage` | manager/upstream.go:74-100 | exactly one event for a keyed request, with the normalized usage or, without one or for a per-request model, no tokens |
| `ResponsesModel.BillExactly` | manager/upstream.go:74-100 | the event of a keyed request carries the raw report's prompt or input, completion or output, and total, or no tokens without a report or for a per-request model |
| `ResponsesModel.FormsAgree` | tokencount/extractor.go:28-35 | a report in the form of the Responses API and the same one in the form of Chat Completions give the same bill and the same accumulated tokens |
| `ResponsesModel.ProcessOutput` | openaiapi/responses_runner.go:128-162 | all built-in calls ran and completed, or it fails; public items keep order and length with each call replaced in place, replays are the call results in call order, and the two flags say whether a built-in or a user call occurred |
| `ResponsesRefinement.StopReached` | openaiapi/responses_runner.go:55-125 | all hops before the one at which a loop ends go on, and that one does not, or is the twelfth |
| `ResponsesJson.AskOnce` | openaiapi/responses_runner.go:56-74 | one round trip appends one request with the transcript as input, its bill and its usage |
| `ResponsesJson.Settle` | openaiapi/responses_runner.go:76-121 | a reply ends the loop with the outcome that status, body (an object, the literal null, or neither), calls and executions determine, or yields the next public output and results |
| `ResponsesJson.HandleResponsesJson` | openaiapi/responses_runner.go:35-126 | for every script of replies: the loop stops at the first hop that does not go on, at most 12, having sent the transcripts up to there, billed each answered request once, and returned that hop's outcome |
| `ResponsesDecisions.JsonGoesOnExactly` | openaiapi/responses_runner.go:76-121 | a reply leads to another request if and only if it is below status 400 with an object, calls the built-in tool, calls no other, and every call executes with both items |
| `ResponsesDecisions.JsonAsksExactly` | openaiapi/responses_runner.go:55-125 | a run sends one to twelve requests, goes on exactly as long as the replies do, and gives up exactly if twelve of them did |
| `ResponsesDecisions.JsonOutcomeExactly` | openaiapi/responses_runner.go:76-121 | by its last reply alone: when it is forwarded as it is, when it is a bad gateway, and that an assembled answer keeps the reply's other fields and carries the accumulated usage |
| `ResponsesDecisions.RequestsStartFromClient` | openaiapi/util.go:159-175 | the first request carries the client's text as one user message, its list as it is, a single item as a list; all requests carry the other fields unchanged |
| `ResponsesStream.EventWriter.Emit` | openaiapi/responses_runner.go:391-409 | events leave in order and are numbered 1, 2, 3, ... without gaps (the writer's invariant) |
| `ResponsesStream.HopReader.OnEvent` | openaiapi/responses_runner.go:215-291 | after any event, everything remembered, emitted, billed and accumulated is that of the events seen so far |
| `ResponsesStream.HopReader.OnToolEvent` | openaiapi/responses_runner.go:218-277 | a built-in call's own events are rewritten or dropped, and its identifier, index and code remembered |
| `ResponsesStream.ReadHop` | openaiapi/responses_runner.go:215-295 | one streamed hop emits, bills and accumulates exactly what its event list determines |
| `ResponsesStream.ReportCalls` | openaiapi/responses_runner.go:326-357 | each executed item is reported as in progress, interpreting, completed and done, in order, under the index remembered for its id |
| `ResponsesStream.TailExactly` | openaiapi/responses_runner.go:326-357 | the i-th executed item is reported by the i-th four events, under the index at which its call was announced, or zero |
| `ResponsesStream.SettleStream` | openaiapi/responses_runner.go:297-372 | after a hop was streamed: the outcome and closing events, or the progress events and the next public output and results |
| `ResponsesStream.StreamLoop.Iterate` | openaiapi/responses_runner.go:191-373 | one iteration keeps the loop's state equal to the closed forms of transcript, public output, usage, requests, bills and events for the hops so far |
| `ResponsesStream.HandleResponsesStream` | openaiapi/responses_runner.go:164-377 | for every script of replies: requests, bills and numbered client events are those of the hops up to the first that does not go on, at most 12, and the outcome is that hop's |
| `ResponsesForwarding.TheRestIsForwarded` | openaiapi/responses_runner.go:215-291 | in every run, successful or not: the client events that are neither completions nor about calls of the built-in tool are exactly those of the model server over all hops used, verbatim, in order, each once: text deltas, the client's own calls as added, arguments and done, other items |
| `ResponsesForwarding.ForwardedAtOnce` | openaiapi/responses_runner.go:215-291 | after any number of a hop's events the client already has all of these, and what follows only adds to what was sent |
| `ResponsesForwarding.UsesToolExactly` | openaiapi/responses_runner.go:218-277 | a hop counts as using the tool if and only if some event shows a built-in call as an item or gives arguments of one announced before it |
| `ResponsesDecisions.StreamGoesOnExactly` | openaiapi/responses_runner.go:297-372 | a hop leads to another request if and only if its stream was intact and showed the tool in use, its last completion calls no other tool, and every built-in call in it executes with both items |
| `ResponsesDecisions.StreamAsksExactly` | openaiapi/responses_runner.go:191-377 | a run sends one to twelve requests, goes on exactly as long as the hops do, and gives up exactly if twelve of them did |
| `ResponsesDecisions.StreamOutcomeExactly` | openaiapi/responses_runner.go:297-372 | by its last reply alone: when an error is forwarded, when the stream fails, when it is passed through, and that an assembled response keeps the completion's other fields and carries the accumulated usage |
| `ResponsesTranscript.CodeInterpreterHonoursContract` | builtins/codeinterpreter/tool.go:405-441 | whatever the sandbox returns, a completed execution gives a public item under the call's trimmed id and a result carrying its trimmed call_id |
| `ResponsesTranscript.CodeInterpreterExactly` | builtins/codeinterpreter/tool.go:405-441 | what an execution of the code interpreter puts into its public item and its result, field by field |
| `ResponsesTranscript.ReplaysAnswerCalls` | openaiapi/responses_runner.go:140-159 | the results of a hop are those of its built-in calls' own executions, one to one, in call order, each with its call's identifier |
| `ResponsesTranscript.HopIsClosed` | openaiapi/responses_runner.go:112-121 | every call of a hop that goes on is answered behind it |
| `ResponsesTranscript.TranscriptClosed` | openaiapi/responses_runner.go:119-121 | for any number of hops, the next input starts with the client's items and leaves no appended call unanswered |
| `ResponsesTranscript.TranscriptLayout` | openaiapi/responses_runner.go:119-121 | between two consecutive inputs lie exactly the hop's output items and then one answer per built-in call in call order |
| `ResponsesTranscript.RanCountsCalls` | openaiapi/responses_runner.go:140-147 | executions are numbered through over the hops: as many as built-in calls in all output so far |
| `ResponsesTranscript.PublicAppend` | openaiapi/responses_runner.go:101-101 | replacing calls commutes with concatenating hops |
| `ResponsesTranscript.OutputConserved` | openaiapi/responses_runner.go:101-117 | after any number of hops the public output so far is all output items in order, each verbatim or, if a built-in call, replaced in place by its own execution's item; nothing lost or duplicated |
| `ResponsesRefinement.JsonOutputConserved` | openaiapi/responses_runner.go:81-117 | the output a client finally gets without streaming is all hops' output items in order, each built-in call replaced in place by its own execution |
| `ResponsesRefinement.StreamOutputConserved` | openaiapi/responses_runner.go:297-370 | the same for the output at the end of a stream whose last hop showed the tool in use or contains no built-in call |
| `ResponsesTranscript.AllCallsRun` | openaiapi/responses_runner.go:128-162 | executions succeeded hop by hop succeeded for the concatenated output |
| `ResponsesTranscript.NoBuiltinCallIsPublic` | openaiapi/responses_runner.go:132-158 | no built-in call survives in the public output |
| `ResponsesTranscript.BalanceStep` | openaiapi/util.go:24-38 | one report and its bill keep reported prompt and completion equal to the billed sums and the reported total no smaller |
| `ResponsesRefinement.JsonRequestsClosed` | openaiapi/responses_runner.go:55-125 | in every run without streaming, every request sent starts with the client's items and carries no unanswered appended call |
| `ResponsesRefinement.StreamRequestsClosed` | openaiapi/responses_runner.go:191-373 | the same for every streaming run |
| `ResponsesRefinement.JsonTokensBalance` | openaiapi/responses_runner.go:72-74 | k answered requests leave k billing events whose sums are the accumulated prompt and completion tokens |
| `ResponsesRefinement.StreamTokensBalance` | openaiapi/responses_runner.go:278-284 | the same over streamed hops, one event per usage report |
| `ResponsesRefinement.JsonReportMatchesBills` | openaiapi/responses_runner.go:55-117 | what a keyed client is told at the end of a run equals the sums over its billing events, one per hop and at most 12; the total is the sum of the hops' totals, each prompt plus completion where zero |
| `ResponsesRefinement.StreamReportMatchesBills` | openaiapi/responses_runner.go:278-313 | at the end of any successful streaming run the usage reported equals the sums over the billing events, one event per usage report |
| `ResponsesRefinement.JsonReportIsSum` | openaiapi/responses_runner.go:55-117 | the usage told at the end of a run is, counter by counter, the sum over its hops of the raw reports' prompt or input, completion or output, total or both |
| `ResponsesRefinement.StreamReportIsSum` | openaiapi/responses_runner.go:278-313 | the same over all completions of the hops of a streaming run |
| `ResponsesRefinement.JsonBillsExactly` | openaiapi/responses_runner.go:72-74 | the j-th billing event of a run carries the j-th raw report's counters in either form, none for a per-request model or without a report |
| `ResponsesEvents.StreamBillsExactly` | openaiapi/responses_runner.go:278-284 | the billing events of a streaming run are those of the raw reports in its completions, in order, each once |
| `ResponsesEvents.StreamBilledOncePerHop` | openaiapi/responses_runner.go:278-313 | over hops that each end with their only completion it equals the sums over one billing event per hop, at most 12 |
| `ResponsesRefinement.NoBuiltinCallInAnswer` | openaiapi/responses_runner.go:94-117 | an answer assembled without streaming never shows a built-in call |
| `ResponsesRefinement.SameHops` | openaiapi/responses_runner.go:191-373 | corresponding replies give both loops the same executions, transcript, public output and usage at every hop |
| `ResponsesRefinement.SameBills` | manager/upstream.go:74-100 | corresponding replies are billed the same, but for the streaming mark |
| `ResponsesRefinement.SameAnswer` | openaiapi/responses_runner.go:297-370 | at the last hop both loops give corresponding answers |
| `ResponsesRefinement.StreamRefinesJson` | openaiapi/responses_runner.go:164-377 | for all replies whose streams, up to the end of the run, announce exactly the calls in their completed output: both loops end at the same hop, send the same requests, bill alike, end with the same output and usage, fail together or hit the 12-hop limit together |
| `ResponsesEvents.ProjectionCommutes` | openaiapi/responses_runner.go:215-291 | what the client sees of an item depends only on the upstream events about that item, however items are interleaved |
| `ResponsesEvents.AnnouncementEmitted` | openaiapi/responses_runner.go:218-277 | an announced call shows, while it streams, as one added item and at most one pair of code events under its index |
| `ResponsesEvents.BuiltinItemStory` | openaiapi/responses_runner.go:215-372 | in every successful run the client's events about an announced built-in item are exactly added, optional code delta and done, in progress, interpreting, completed, item done, all with one index; the call was executed and the item done carries its id |
| `ResponsesEvents.NoRawItemLeaks` | openaiapi/responses_runner.go:218-277 | in every run, successful or not and whatever upstream sends, no added or finished item the client sees is a built-in function call |
| `ResponsesLeaks.RememberedIsAnnounced` | openaiapi/responses_runner.go:218-231 | the router remembers exactly the built-in calls announced under a non-blank id |
| `ResponsesLeaks.EmissionDiscreetExactly` | openaiapi/responses_runner.go:215-291 | a streamed hop forwards no built-in call as an item, by its arguments or in a completion if and only if argument events of built-in calls follow their announcement in that hop and no completion forwarded contains one |
| `ResponsesLeaks.GoingHopsExactly` | openaiapi/responses_runner.go:191-373 | the same for all hops that go on, with what they report of their calls |
| `ResponsesLeaks.NoRawCallLeaksExactly` | openaiapi/responses_runner.go:211-372 | over whole runs no client event shows a built-in call of any hop if and only if every hop meets that condition with respect to the calls of all hops, and the answer is not assembled from a last hop that contains a call but never showed the tool in use |
| `ResponsesLeaks.UnannouncedCallLeaks` | openaiapi/responses_runner.go:246-289 | a hop that leaks: arguments and completion of a call never announced reach the client as they are |
| `ResponsesLeaks.BlankIdentifierLeaks` | openaiapi/responses_runner.go:223-246 | a successful run in which argument fragments after an announcement under a blank id reach the client |
| `ResponsesLeaks.LaterFragmentLeaks` | openaiapi/responses_runner.go:208-246 | a successful run in which a later hop sends a fragment of a call announced and executed before: what is remembered is dropped with each hop, so it reaches the client |
| `ResponsesLeaks.FinalResponseShowsCallExactly` | openaiapi/responses_runner.go:297-370 | an assembled final response contains a built-in call if and only if its last hop contained one and no event of that hop showed the tool in use |
| `ResponsesLeaks.PassedThroughShowsCompletions` | openaiapi/responses_runner.go:278-301 | a stream that is passed through shows exactly the completions upstream sent, so a built-in call in one is shown |
| `ResponsesLeaks.UnannouncedCallInAnswer` | openaiapi/responses_runner.go:302-313 | a run whose assembled answer contains a built-in call |
| `ResponsesLeaks.CrashesExactly` | openaiapi/responses_runner.go:302-305 | the handler writes into a nil map if and only if an intact hop uses no tool, something is public already and no completion carried a response object |
| `ResponsesLeaks.CrashHappens` | openaiapi/responses_runner.go:302-305 | a two-hop run that crashes |
| `ResponsesLeaks.JsonCrashesExactly` | openaiapi/responses_runner.go:81-107 | without streaming it does if and only if the body is the literal null and something is public already or the client library did not decode it |
| `ResponsesLeaks.JsonCrashHappens` | openaiapi/responses_runner.go:88-107 | a two-hop run without streaming that crashes |
| `ResponsesEvents.CompletionPasses` | openaiapi/responses_runner.go:278-289 | a hop's own completion is forwarded exactly when it is the first hop and used no tool |
| `ResponsesEvents.OneCompletionLast` | openaiapi/responses_runner.go:278-370 | in every successful run over hops that end with their only completion, the client gets exactly one completion, as the last event |
| `Sse.RenderThenScan` | tokencount/extractor.go:231-238 | lines without LF or trailing CR and below the limit are read back as written, whatever follows |
| `Sse.CopiedExactly` | tokencount/extractor.go:171-239 | scanning lines and writing them back is the identity if and only if the input is read completely, LF-terminated and free of CR LF |
| `Sse.ParseAppend` | openaiapi/responses_runner.go:411-446 | parsing a concatenation at an event boundary is the concatenation of the parses |
| `Sse.ParseSseStream` | openaiapi/responses_runner.go:411-446 | delivers the decodings of the payloads in order up to the first that does not decode, and succeeds exactly when all lines fit and all payloads decode |
| `Sse.DecodedExactly` | openaiapi/responses_runner.go:418-428 | what is delivered decodes one payload each, and stops short only at a payload that does not decode |
| `Sse.DataLinesJoin` | openaiapi/responses_runner.go:416-434 | the data lines of an event are joined without a separator, and delivered at the blank line unless they are all empty |
| `Sse.OtherLinesIgnored` | openaiapi/responses_runner.go:431-433 | a line that is neither blank nor a data line makes no difference wherever it stands |
| `Sse.EventLines` | openaiapi/util.go:255-271 | the lines of one printed event: those of its type field, the data line, a blank |
| `Sse.PrintedEventsParse` | openaiapi/util.go:255-271 | round trip: parsing the concatenation of any list of printed events delivers exactly their payloads, in order |
| `Sse.LfFreeKindIsHarmless` | openaiapi/util.go:261-266 | a type without line feeds puts no data into its event |
| `Sse.RoundTripExactly` | openaiapi/util.go:255-271 | for any type, the event is delivered as its payload alone if and only if no line of the type reads as data |
| `Sse.HarmfulKindBreaks` | openaiapi/util.go:261-266 | a type with a line feed that breaks the round trip with any payload |
| `Sse.HarmfulKindExists` | openaiapi/util.go:255-271 | an object with that type, printed as its own payload, does not survive the round trip |
| `Extractor.StreamingTokenExtractor.Inspect` | tokencount/extractor.go:187-226 | one chunk updates the usage per field by its positive values and is recognised as usage-only or not |
| `Extractor.StreamingTokenExtractor.ProcessStream` | tokencount/extractor.go:166-261 | for every input: the output is the input lines less usage-only lines and the blank right after each, and the handler gets the merged usage, independent of the client's flag |
| `Extractor.KeptExactly` | tokencount/extractor.go:171-239 | on the lines themselves: the client gets, in order and unchanged, all lines if it asked for usage, else those that are neither a data line with usage and an empty choices array nor the blank line right behind one |
| `Extractor.MergedExactly` | tokencount/extractor.go:187-209 | on the lines themselves: each counter of the merged usage is the raw one, in either form, of the last line on which it is positive, whether that chunk has choices or not |
| `Extractor.UsageFoundExactly` | tokencount/extractor.go:241-258 | the handler is called exactly if some line has a positive total or completion, once, with those counters; a total that is nowhere positive is prompt plus completion |
| `Extractor.StreamingTokenExtractor.Finish` | tokencount/extractor.go:241-260 | the total is filled in if zero and the handler called at most once |
| `Extractor.HandledExactly` | tokencount/extractor.go:241-258 | the handler is called if and only if some report has a positive total or completion, at most once, with a positive total |
| `Extractor.MergeStep` | tokencount/extractor.go:199-207 | each field of the merged usage is the last positive value reported |
| `Extractor.NoBlankPairCreated` | tokencount/extractor.go:176-181 | the filter creates no two adjacent blank lines if the input has none |
| `Extractor.TransparentExactly` | tokencount/extractor.go:211-238 | when the client asked for usage the bytes are unchanged if and only if the input fits the scanner, is LF-terminated and has no CR LF |
| `Extractor.FilterCommutes` | tokencount/extractor.go:171-239 | line by line, parsing the kept lines is parsing all lines less the usage-only payloads |
| `Extractor.RenderThenRescan` | tokencount/extractor.go:171-239 | lines the filter wrote are read back without their trailing CR |
| `Extractor.FilteredStreamParses` | tokencount/extractor.go:171-239 | for streams of one data line per event and lines within the scanner's limit, parsing the filtered bytes delivers exactly the payloads that are not usage-only, in order, if and only if no kept data line still ends in CR after its line end was removed |
| `Extractor.TrailingCrIsLost` | tokencount/extractor.go:171-239 | a stream whose payload loses its CR in the filter |
| `RateLimit.RequestTracker.RecordAndCheck` | ratelimit/tracker.go:52-90 | counts the call in its bucket's window, evicts at most once a minute, and answers whether a positive limit is reached; no key, no effect |
| `RateLimit.RequestTracker.Cleanup` | ratelimit/tracker.go:94-101 | exactly the buckets whose window starts more than two minutes ago are deleted |
| `RateLimit.CountsWindow` | ratelimit/tracker.go:63-78 | the count after a call is the number of calls so far with that bucket key in that minute |
| `RateLimit.BucketKeyInjective` | ratelimit/tracker.go:45-47 | NUL-free API keys give each key and model a bucket of their own |
| `RateLimit.ModelNamesSuffice` | ratelimit/tracker.go:45-47 | so do NUL-free model names, whatever the API keys |
| `RateLimit.BucketIsPrivateExactly` | ratelimit/tracker.go:45-47 | an API key and model share a bucket with no other possible pair if and only if neither contains a NUL |
| `RateLimit.BucketKeyCollides` | ratelimit/tracker.go:45-47 | two pairs that share a bucket, with a NUL in an API key and in a model name |
| `RateLimit.TrackerCountsHistory` | ratelimit/tracker.go:52-90 | over any history with a clock that does not run back, and API keys or model names without NUL: demoted if and only if the limit is positive and the calls of that key and model in the same minute of the clock, this one included, reach it |
| `RateLimit.EvictionUnobservable` | ratelimit/tracker.go:80-101 | even if clocks run back by a minute and a nanosecond, every call is counted as if nothing were ever evicted |
| `RateLimit.MoreSkewIsObservable` | ratelimit/tracker.go:80-101 | with one nanosecond more, eviction shows |
| `Admission.Model.AddEnclave` | manager/manager.go:123-179 | a host that passes attestation, hardware and measurement checks and is not pooled with the key it presents is afterwards pooled with exactly its attested key, every other entry as it was; otherwise the pool is unchanged, and it fails exactly if the checks fail |
| `Admission.Model.Commit` | manager/manager.go:416-427 | a new release replaces tag and measurement, empties the pool and keeps the rest |
| `Admission.Model.Configure` | manager/manager.go:476-494 | takes over the overload settings and keeps exactly the pooled hosts that are still listed |
| `Admission.Model.NextEnclave` | manager/manager.go:264-280 | returns a member of the pool, none exactly when it is empty |
| `Admission.OwnModelStaysSafe` | manager/manager.go:386-510 | every step of a sync goroutine keeps its model's pool trusted, its source anchored and its task sound |
| `Admission.StepKeepsSafe` | manager/manager.go:430-515 | every step of every goroutine keeps the whole system safe |
| `Admission.RunStaysSafe` | manager/manager.go:123-515 | for every interleaving, config sequence and failure pattern, every reachable state is safe |
| `Admission.ServedEnclaveIsVerified` | manager/manager.go:123-179 | any enclave a reader can pick was attested for its host with the key in use, and matches a release verified for the configured repo and current tag |
| `Admission.PoolsFollowConfig` | manager/manager.go:446-510 | models and their repos stay those of the initial config, and after a sync pools of models with unchanged repo hold only listed hosts |
| `Admission.AttestedIsPooled` | manager/manager.go:123-179 | in every run, the next listed host that attests is pooled under the attested key, unless it was pooled and still presents the pooled key; the others stay as they are |
| `Admission.PooledUntilEvicted` | manager/manager.go:416-494 | in every run, a pooled host stays under its key until its model's next release, a config that no longer lists it, or its attestation under another key |
| `Admission.FailedUpdateStillConfigures` | manager/manager.go:386-494 | a sync without a newer tag, or whose release does not verify, keeps release and listed hosts, takes over the config and goes on to try every listed host |
| `Admission.SuccessfulSyncFillsPool` | manager/manager.go:430-515 | a sync that finds a new release, verifies it and gets a good attestation from every listed host ends with exactly those hosts pooled, each under its attested key |
| `Proxy.Exchange.ModifyResponse` | manager/proxy.go:94-256 | the branch taken decides the body handed on, what is billed at once and what is told to the client; a stream starts its extractor and is not billed yet; only a failed metrics read is an error, and it bills nothing |
| `Proxy.Exchange.EndExtraction` | tokencount/extractor.go:241-261 | when the extractor ends, the usage in what it got to read of the stream is billed and told to the client, if there is any |
| `Proxy.Exchange.Read` | manager/proxy.go:340-348 | a read returns the next bytes of the chosen body; bytes read through the tee are kept for the close |
| `Proxy.Exchange.Close` | tokencount/extractor.go:84-95 | the usage found in what was read is billed; else the billing closer bills the request, once |
| `Proxy.DeliveryIsFaithful` | manager/proxy.go:186-256 | however the body is read, the client has a prefix of the upstream body (of the filtered stream), and all of it once a read returns nothing |
| `Proxy.PlainDelivery` | manager/proxy.go:186-256 | a body that is not streamed arrives as it is, each read adding at most what it asked for, and completely once a read returns nothing |
| `Proxy.StreamDelivery` | tokencount/extractor.go:171-239 | a stream arrives as exactly the lines the client is to receive, each ended by a line feed |
| `Proxy.OnlyExtractionBills` | tokencount/extractor.go:127-138 | before the close only the end of the extractor bills, and reads never do |
| `Proxy.StreamBilledAfterDelivery` | tokencount/extractor.go:166-261 | a stream is billed only after the client received all of it or hung up |
| `Proxy.BilledExactly` | manager/proxy.go:94-256 | after one close, wherever the extractor ended and however much it could still read, the events are exactly: one with the usage found, else one without tokens for a per-request success or upgrade, else none |
| `Proxy.BilledOnce` | manager/proxy.go:60-68 | at most one event per response; exactly one for a keyed 200 non-streaming response if and only if metrics buffering neither failed nor exceeded 10 MiB; no tokens for websearch |
| `Proxy.BilledToRequest` | manager/proxy.go:273-289 | every event of a response, however often it is closed, carries exactly what follows Bearer in the request's authorization, and nothing if there is none |
| `Proxy.KeyedBilledOnce` | manager/proxy.go:60-68 | a request with a non-empty bearer key whose response is an upgrade or a success that is not streamed leaves exactly one event, with that key, unless metrics were asked of a body over 10 MiB |
| `Proxy.PlainBilledExactly` | manager/proxy.go:94-256 | by status, type, body and key alone: when a response that is not streamed leaves an event, and that it carries the raw report's prompt or input, completion or output, and total |
| `Proxy.StreamBilledExactly` | tokencount/extractor.go:241-258 | a stream leaves an event, and shows metrics if asked, exactly if a line the extractor read has a positive total or completion, with each counter from the last line on which it is positive |
| `Proxy.MetricsAreBilled` | manager/proxy.go:209-215 | usage metrics shown to the client are the tokens billed |
| `Proxy.MetricsExactly` | manager/proxy.go:186-222 | metrics are shown exactly if asked for and found in a stream or in a buffered JSON success within the limit |
| `Proxy.BilledOnceExactly` | tokencount/extractor.go:84-95 | with several closes there is at most one event if and only if the body is not one whose usage is read at the close; such a body is billed at every close |
| `Proxy.BilledTwice` | tokencount/extractor.go:84-95 | any JSON success with usage that is read to its end, without usage metrics, is billed twice when closed twice |
| `Collector.Collector.Append` | billing/events.go:96-96 | appending keeps the queue's contents and adds one event, in place or in a fresh array |
| `Collector.Collector.AddEvent` | billing/events.go:83-103 | an encodable event is queued last, others are dropped; batches and snapshots handed out before are unchanged |
| `Collector.Collector.GetEvents` | billing/events.go:106-114 | a fresh copy of the queue, which later appends do not touch |
| `Collector.Collector.TakeBatch` | billing/events.go:151-162 | a queue that is not empty becomes a fresh batch and starts over in the same array; batches followed by the queue remain the accepted events in order |
| `Collector.RunConserves` | billing/events.go:83-162 | in every interleaving of adders, ticks and Stop: attempts, the batch in flight and the queue are the accepted events in order |
| `Collector.StopDrains` | billing/events.go:124-162 | attempted batches are a prefix of the accepted events, each event once, and when Stop returns they contain every event added before it |
| `Collector.AcceptedExactly` | billing/events.go:83-96 | the events accepted are, in order, exactly those whose timestamp has a year from 0 to 9999 |
| `Collector.TickSendsAll` | billing/events.go:133-162 | a tick that finds the worker waiting empties the queue, and once its batch is out all events accepted so far were attempted, each once |
| `Collector.StopCompletes` | billing/events.go:124-148 | once quit is closed the worker finishes by its own steps, with every event added before Stop attempted |
| `Collector.BadUrlSendsNothing` | billing/events.go:171-177 | with a URL that does not parse nothing is ever attempted |
| `ChatCalls.ChatStream.CollectChatToolCalls` | openaiapi/chat_runner.go:274-301 | one chunk's deltas are added to the builders in document order |
| `ChatCalls.ChatStream.Scan` | openaiapi/chat_runner.go:157-208 | builders, usage and forwarded lines are those that the lines before the end mark determine |
| `ChatCalls.CollectedExactly` | openaiapi/chat_runner.go:274-301 | the deltas collected are exactly those in the chunks before the end mark, in document order, each with its own index, id, name and fragment |
| `ChatCalls.ForwardedExactly` | openaiapi/chat_runner.go:157-208 | the output is, in order and unchanged, every line before the end mark but, for a client that did not ask for usage, data lines with usage and no choices and the first blank line behind each |
| `ChatCalls.UsageExactly` | openaiapi/chat_runner.go:191-193 | the usage recorded is the raw one, in either form, of the last line before the end mark that reports any |
| `ChatCalls.ChatStream.ExecuteCalls` | openaiapi/chat_runner.go:212-252 | in whatever map order, each built-in call is executed once with trimmed id and arguments, up to the first failure |
| `ChatCalls.StreamCallsExactly` | openaiapi/chat_runner.go:212-252 | the tool is called once for each index whose deltas end up naming it, with the last id that is not blank and the joined fragments, trimmed |
| `ChatCalls.HandleChatJson` | openaiapi/chat_runner.go:68-104 | the built-in calls of a JSON answer are executed in order, up to the first failure, if some function-typed one is found |
| `ChatCalls.JsonCallsExactly` | openaiapi/chat_runner.go:68-104 | the tool is called in document order, exactly with the calls that name it, both strings trimmed; with none if no such call is typed as a function call |
| `ChatCalls.ChatCompletionHasToolCalls` | openaiapi/chat_runner.go:344-358 | finds a function-typed call with the tool's trimmed name if there is one |
| `ChatCalls.BuiltFromOwnDeltas` | openaiapi/chat_runner.go:274-301 | a call is made of its own index's deltas only: last non-blank id and name, all argument fragments concatenated |
| `ChatCalls.InterleavingIrrelevant` | openaiapi/chat_runner.go:274-301 | any interleaving with the same deltas per index builds the same calls |
| `ChatCalls.NothingDropped` | openaiapi/chat_runner.go:191-194 | a client that asked for usage gets every line up to the end mark |
| `ChatCalls.SitesAgree` | openaiapi/chat_runner.go:78-104 | a call stands in the completion if and only if it is among the assembled calls of a stream that spells the completion out |
| `ChatCalls.SpellingIsAssembled` | openaiapi/chat_runner.go:274-301 | deltas that carry a completion's calls index by index, fragmented and interleaved in any way, assemble to exactly those calls |
| `ChatCalls.SameCallsExactly` | openaiapi/chat_runner.go:63-104 | for any fragmentation and interleaving of a completion's calls, stream and JSON handler execute the same calls, each once, if and only if some call naming the tool is typed as a function call or no call names it |
| `ChatCalls.UntypedCallIsMissed` | openaiapi/chat_runner.go:344-358 | a call that only the stream handler executes |
| `Sandboxes.SandboxManager.Install` | builtins/codeinterpreter/sandbox_manager.go:82-86 | sandbox and gateway are set together if no gateway is there, else nothing changes |
| `Sandboxes.SandboxManager.Ensure` | builtins/codeinterpreter/sandbox_manager.go:48-87 | an uninterrupted call succeeds if ready, or after creation and bootstrap; a failed bootstrap leaves the slot alone and dooms its sandbox |
| `Sandboxes.CloseDeletes` | builtins/codeinterpreter/sandbox_manager.go:89-102 | a successful close leaves the installed sandbox deleted, unless its id is blank |
| `Sandboxes.FirstCallExecutes` | builtins/codeinterpreter/sandbox_manager.go:41-102 | a call on its own creates, bootstraps, installs and executes on one sandbox with the trimmed id it was given; a close then deletes it unless that id is blank |
| `Sandboxes.ExecutesOnInstalled` | builtins/codeinterpreter/sandbox_manager.go:41-87 | in every reachable state an execution is on the installed pair |
| `Sandboxes.StepKeepsSlot` | builtins/codeinterpreter/sandbox_manager.go:41-87 | no step replaces what is installed, and calls execute only once both parts are there |
| `Sandboxes.StepKeepsPartition` | builtins/codeinterpreter/sandbox_manager.go:41-102 | each created sandbox stays in exactly one place: installed, cleaned up, lost or held by one call |
| `Sandboxes.RunStaysSafe` | builtins/codeinterpreter/sandbox_manager.go:41-102 | both hold in every reachable state of every interleaving |
| `Sandboxes.NeverReplaced` | builtins/codeinterpreter/sandbox_manager.go:82-86 | what is installed at any point is there at the end, and every execution of the run used it |
| `Sandboxes.CreationsAccountedFor` | builtins/codeinterpreter/sandbox_manager.go:69-86 | creations = installed + cleaned up after failed bootstrap + in flight + lost races |
| `Sandboxes.LeftAfterClose` | builtins/codeinterpreter/sandbox_manager.go:89-102 | after a successful close exactly blank ids, failed cleanups, lost races and creations in flight are undeleted |
| `Sandboxes.SerialRunLeavesNothing` | builtins/codeinterpreter/sandbox_manager.go:48-102 | serial runs lose no race, and after a successful close nothing is undeleted if and only if there was no blank id and no failed cleanup |
| `Sandboxes.RaceLeaks` | builtins/codeinterpreter/sandbox_manager.go:82-86 | two calls that both find the slot empty leave an undeleted sandbox |
| `Poller.EnclaveMetrics.EvaluateThresholds` | manager/metrics.go:211-243 | the flag becomes the comparison with the threshold, and its rises and falls are counted; without a positive threshold nothing changes |
| `Poller.EnclaveMetrics.Scrape` | manager/metrics.go:110-150 | a scrape that found the gauge stores the sample and evaluates it under the current config |
| `Poller.EnclaveMetrics.ApplyConfig` | manager/metrics.go:63-76 | takes over the config; without one flag and sample are reset |
| `Poller.EnclaveMetrics.ShouldReject` | manager/metrics.go:245-274 | rejects if and only if there is a positive threshold and a sample at most 45 seconds old that is not below it, then for the configured minutes or one |
| `Poller.FlagAgreesExactly` | manager/metrics.go:211-274 | right after a scrape the flag says whether requests are rejected if and only if the gauge is a number |
| `Poller.RunStaysSafe` | manager/metrics.go:53-166 | in every run of serialized setConfig and shutdown calls interleaved with pollers, the poller, counter and sample invariants hold |
| `Poller.OnePoller` | manager/metrics.go:53-89 | at most one poller is not cancelled; between calls there is one exactly if cancel is set |
| `Poller.ConfigTakesEffect` | manager/metrics.go:53-89 | out of every reachable state a setConfig can run to its end, and then its config is in force with one live poller, or none and flag and sample reset; the poller before it has ended |
| `Poller.SilentWhileUnconfigured` | manager/metrics.go:68-76 | from the return of setConfig without config to the next config no sample lands, the flag is down and nothing is rejected |
| `Poller.EventsBalance` | manager/metrics.go:211-243 | overload events less recoveries less flags reset is the flag |
| `Poller.WaitingEnds` | manager/metrics.go:57-61 | a setConfig or shutdown that waits can always go on |
| `Rewriting.Request.constructor` | openaiapi/request.go:58-143 | parses the stream flag and whether the client asked for usage, by endpoint |
| `Rewriting.Request.StripPriority` | openaiapi/request.go:145-155 | the priority field is gone and the request is marked as modified exactly if it was there |
| `Rewriting.Request.SetPriority` | openaiapi/request.go:157-163 | the priority field has the given value, all others are kept |
| `Rewriting.Request.EnableContinuousUsageStats` | openaiapi/request.go:165-190 | a stream gets its own options plus continuous usage and remembers whether the client had asked; anything else is unchanged |
| `Rewriting.ServesIsUnique` | openaiapi/plan.go:63-186 | the field-by-field reference determines body and usage flag, so pipelines that meet it agree |
| `Rewriting.ServesExactly` | openaiapi/plan.go:63-186 | the reference written out: which bodies ask for usage, when the bytes are left alone, and the exact fields sent otherwise |
| `Rewriting.ServeTyped` | openaiapi/plan.go:69-84 | accepts exactly what decodes, names a model and has a boolean stream flag and object options, and then sends: priority present iff demoted with value 1, the client's options plus continuous usage on a stream, other fields untouched, the original bytes exactly when nothing applied, the usage flag iff the client asked |
| `Rewriting.ServeGeneric` | openaiapi/plan.go:144-186 | the same result for every decoded body, without rejecting |
| `Rewriting.ServeBoth` | openaiapi/plan.go:63-186 | whatever the typed pipeline accepts, the generic one sends on identically |
| `Rewriting.RewritingTwice` | openaiapi/request.go:165-190 | rewriting a rewritten body changes no field, but every stream then seems to have asked for usage |

## Left out

- HTTP, TLS, the reverse proxy library, websocket hijacking and flushing: only the decisions taken in the response hook and the close hooks are modelled; failing writes to the client are not.
- Sigstore, GitHub and attestation verification: each fetch or verification is an outcome chosen freely per step, and the measurement comparison an arbitrary function.
- JSON: field order, duplicate keys, number precision and the padding of type strings; items and events are datatypes with the fields the code reads. Output indices that are not integers are not modelled.
- ResponsesLeaks.NoRawCallLeaksExactly: events of types the router does not look at are opaque, so calls inside them are not counted as raw.
- 64-bit overflow of token counts and rate-limit counters; only the reader counter of `NextEnclave` wraps.
- Output indices of later hops are what the model server sent; nothing is claimed about their place in the final list.
- Aliasing of usage objects: `Normalize` changes an object that billing sees too, which is modelled as normalizing at each use.
- `manager/manager.go` fairness of `NextEnclave`: the slice is built in map order, so only membership is stated.
- Shutting down pollers when an enclave is replaced or its model leaves the config; poller claims are per enclave object, and setConfig and shutdown calls are taken one after the other.
- The window in which `shutdown` has cleared `cancel` but not yet called it: with serialized calls nothing can observe it.
- Sandboxes that the control plane created but reported as failed: only successful creations are counted.
- Session and image checks in `ensure` are one flag, and the sandbox's code execution is not modelled.
- Billing event fields other than key, tokens, model, time and the streaming mark; masking of API keys in logs; the test-only `Clear`; the ticker's timing.
- Merging trailer names (`AddTrailerHeader`) and formatting of the usage header: list and string editing without effect on billing or bodies.
- Rewriting of tool lists and tool choice (`prepareChat`, `prepareResponses`): a branching field edit without state.
- Proxy.DeliveryIsFaithful: a broken upstream body reports its error on a read after its last byte, never together with data.
- Poller.EnclaveMetrics.ShouldReject: gauge values are real numbers or not-a-number; infinities are not told apart.
- Rewriting.ServeTyped: whether the request is demoted and whether its typed parameters decode are inputs, and the tool's own prepared body, which may replace the rewritten one, is not modelled.
- ChatCalls.ChatStream.ExecuteCalls: the chunks that carry results back to the client are represented by the site and patch of each execution.
- ChatCalls.ChatStream.Scan: the stream is read to its end; a read error ends the handler before usage is recorded or any call is executed, and the 16 MiB line limit is not modelled.
- Routing, command line, configuration loading, Prometheus output and the web search tool: glue without state of its own.
