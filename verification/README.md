# Verified model of the stream, session, routing and parsing core

A Dafny model of the parts of the gateway where correctness is hardest to see
in one function: the pipeline from Devin frames to client streams, the
administrator login throttle, the authorization sessions of both login flows,
the choice of accounts and failover between them, four wire-format readers,
and the reconstruction of stored conversations. `dafny verify dfyconfig.toml`
checks all of it.

Each component that the program updates in place is a class whose methods are
proved against functions on its state (modules named `...Steps`); the laws of
the component are lemmas about those functions, over all inputs, all runs or
all interleavings.

| files | component |
|---|---|
| `StreamMapper`, `StreamProtocol`, `MapperConformance`, `MapperResults`, `FrameMeaning`, `MapperMeaning` | the mapper, an automaton for the event protocol, the proof that every accepted run obeys it, and what a run means in terms of its frames |
| `CanonicalEvents`, `ChatTranslator`, `AnthropicTranslator`, `AnthropicDelivery`, `AnthropicSignature`, `AnthropicBrackets`, `AnthropicPlacement`, `AnswerMeaning`, `AnyStream` | the two translators, each with a client that folds what is streamed, and what their answers mean |
| `Throttle`, `ThrottleBounds`, `ThrottleBlocks` | failure counters, the global breaker, their bounds over timed runs, and who is blocked for how long |
| `JsonScanner`, `JsonGrammar`, `JsonAcceptance`, `StrictString`, `StrictStringResults` | the raw JSON splitter against the grammar of JSON and against the wider one that it accepts, the string validator against UTF-8 and surrogate pairs |
| `OAuthSessions`, `OAuthInvariants`, `OAuthOutcomes`, `DevinLifecycle`, `DevinLifecycleSafety`, `DevinLifecycleSettlement`, `DevinLifecycleClearance`, `DevinLifecycleOutcomes` | the session table, its invariants, concurrent completions over it, who may exchange, what a completion comes to, and who settles a consumed session |
| `Cooldowns`, `CooldownMeaning`, `Scheduler`, `SchedulerMeaning`, `Execution`, `ExecutionOutcomes`, `RoutedStream`, `RoutedStreamRecords` | cooldown rows, account order, failover, the committed stream |
| `ProtoWire`, `ProtoMessages`, `ProtoMeaning`, `ServerSentEvents`, `Reconstruct` | the protobuf codec, SSE frames, conversation history |
| `Basics`, `Provider` | shared types |

Modules named `...Meaning`, `...Outcomes`, `...Blocks`, `...Records`,
`...Endings`, `...Acceptance` and `...OfAnyStream` state the results on what
goes in and what comes out: frames, events, rows, replies, fields and bytes.

Times are whole Unix seconds and never decrease within a run. Strings are byte
strings, one `char` a byte. Events are a datatype: what an event says once its
JSON is decoded. `json.Valid` is a parameter known only to reject the empty
string, and the client's tool name map is a parameter shared by both answers.

Where the program does not meet a statement one might expect, the model keeps
the program's behaviour, shows an input, and proves the exact condition:

- Anthropic blocks overlap when text or thinking precedes the first tool
  (`AnthropicBrackets.SpeechBreaksBrackets`, `BracketedExactlyWhenUndisturbed`).
- The signature of the thinking is not streamed when the first tool comes
  between the thinking and the item that carries the signature
  (`AnthropicSignature.ToolTakesSignature`, `SignatureHeardExactly`).
- A pending session can be stored with an account id
  (`OAuthInvariants.PendingWithAccount`, `AccountsExactly`).
- The history's byte count starts at two, but an empty list is emitted as
  `null` (`ReconstructLaws.EmptyInputEmitted`, `BudgetMatchesEmitted`).
- Data written into a named frame, with a blank in front or with a line break
  at the end is not taken back as it was (`EventDataSteps.DataTakenExactly`).
- Data cut off inside its line by a broken stream is delivered as an event,
  data cut off behind its line is not (`SseLaws.CutLineRead`, `UnfinishedRead`).
- The comment at `internal/devin/stream_client.go:650` lists the escapes of a
  JSON string; the code passes over a backslash and any byte but `u`
  (`StrictStringResults.AcceptedExactly` describes the code).

The concurrent parts are state machines over the program's atomic steps: one
SQL transaction, one exchange, one lock region. `DevinLifecycle.ProviderLifecycle.Complete`
and `RoutedStream.RoutedStream.Next` and `Close` are tied to their machines by
proving that each, run alone, ends as the machine does when only that call acts.

## Model

| member | source | states |
|---|---|---|
| `MapperMeaning.RunMeans` | internal/devin/stream_mapper.go:51-299 | for every accepted run, told on the frames alone: the text deltas concatenate to the texts of the frames and the reasoning deltas to their thinking; the run ends in a response with the id and model the frames give, the status and reason of the last specified stop, the usage of the last frame with usage, and one item per slot in the order in which thinking, text and tools first come, the reasoning item with the last non-empty signature and each tool with the arguments accumulated from its fragments |
| `MapperMeaning.RunAcceptedExactly` | internal/devin/stream_mapper.go:51-266 | a run is accepted if and only if nothing is thought or signed after text has ended the thinking, every usage fits 64-bit totals, every call names or continues a tool under one name within the byte limit, the last stop is no error, and the arguments of every tool are valid JSON |
| `ChatAgreement.DevinRunsAgree` | internal/translate/openai/chatcompletions/response.go:45-227 | for every run of frames the mapper accepts, a client that folds the streamed chunks ends with the same id, content, reasoning, ordered tool calls (id, name, arguments), finish reason and usage as the non-streaming answer gives |
| `ChatAgreement.StreamingAgrees` | internal/translate/openai/chatcompletions/response.go:102-198 | the same agreement for every event stream that obeys the protocol, which passes over the events that both translators ignore |
| `ChatMeaning.AnswerMeans` | internal/translate/openai/chatcompletions/response.go:45-198 | for every conforming stream, streamed and collected alike: text and reasoning are the deltas, the calls are the tool items of the terminal output under the names the client knows; the finish reason is "tool_calls" exactly when a tool was announced, otherwise "length" exactly for an incomplete response at "max_output_tokens" or "max_tokens", "content_filter" exactly for an incomplete response with that reason, and "stop" else; prompt, completion, total, cached and reasoning counts are the named fields of the terminal usage |
| `ChatMeaning.DevinAnswersFrames` | internal/translate/openai/chatcompletions/response.go:45-198 | every accepted run is answered, streamed and collected, as its frames ask: id, model, text, thinking and calls of the frames, the finish reason from the last specified stop and whether any call came, and the counts of the last frame with usage |
| `ChatMeaning.EndsSay` | internal/translate/common/common.go:141-152 | the finish reason of every terminal response, with and without a tool, with the strings written out |
| `ChatMeaning.ChunksAreNamed` | internal/translate/openai/chatcompletions/response.go:102-198 | every chunk of a conforming stream carries the id and the model its response was opened with, speaks as the assistant exactly when it brings text, reasoning or a new call, and finishes with usage exactly when it is the last |
| `ChatOfAnyStream.AnyStreamIsHeard` | internal/translate/openai/chatcompletions/response.go:102-198 | for every event stream of any provider whose chunks a client can fold: the client has exactly the text pieces and reasoning pieces in order, and the text of a finished message exactly when nothing had been said before it |
| `ChatOfAnyStream.CollectsExactly` | internal/translate/openai/chatcompletions/response.go:45-100 | any event stream is answered if and only if some event carries a response, and then with what the last such event says: id, model, the output texts of its messages, its reasoning summaries, its calls in order, the finish reason and the counts |
| `AnthropicDelivery.DevinToolsDelivered` | internal/translate/anthropic/response.go:104-302 | for every accepted run, however tools, text and thinking interleave, the client starts each tool of the answer exactly once and in order, at strictly increasing block indexes; its input pieces concatenate to the final arguments; id, text, thinking, stop reason and sequence, and usage are those of the non-streaming answer; no input piece is ever addressed to a tool that was not started |
| `AnthropicDelivery.ToolsDelivered` | internal/translate/anthropic/response.go:104-302 | the same delivery for every event stream that obeys the protocol |
| `AnthropicMeaning.AnswerMeans` | internal/translate/anthropic/response.go:47-102 | for every conforming stream, streamed and collected alike: text and thinking are the deltas, the tool blocks are the tool items of the terminal output under the names the client knows, the stop reason is the one the terminal response asks for, and the counts are the named fields of its usage |
| `AnthropicMeaning.DevinAnswersFrames` | internal/translate/anthropic/response.go:47-102 | every accepted run is answered as its frames ask: one block per slot in order, thinking with the last signature, text, and tools with their arguments; the stop reason is "tool_use" when any call came and otherwise follows the last specified stop |
| `AnthropicMeaning.StopsSay` | internal/translate/anthropic/response.go:315-351 | the stop reason of every terminal response: "tool_use", "stop_sequence", "max_tokens", "refusal" or "end_turn", each on exactly the fields that ask for it |
| `AnthropicOfAnyStream.AnyStreamIsSaid` | internal/translate/anthropic/response.go:104-302 | for every event stream of any provider: the text and thinking pieces sent are exactly the text, refusal and reasoning pieces in order, and a finished message only when nothing had been said before it |
| `AnthropicOfAnyStream.CollectsExactly` | internal/translate/anthropic/response.go:47-102 | any event stream is answered if and only if some event carries a response, and then with what the last such event says: one thinking block per reasoning item that has any, one text block per text or refusal part, one tool block per call, and stop reason, stop sequence and counts |
| `AnthropicSignature.DevinSignatureHeardExactly` | internal/translate/anthropic/response.go:133-239 | for every accepted run, the thinking signature the client hears is that of the non-streaming answer unless the first tool of the stream is announced between the last thinking delta and the finished reasoning item that carries it; exactly then the client hears none |
| `AnthropicSignature.SignatureHeardExactly` | internal/translate/anthropic/response.go:133-239 | the same condition for every event stream that obeys the protocol |
| `AnthropicSignature.ToolTakesSignature` | internal/translate/anthropic/response.go:158-239 | a concrete accepted run, one frame with thinking, its signature and a tool call, whose signature is in the answer but never streamed |
| `AnthropicBrackets.BracketedExactlyWhenUndisturbed` | internal/translate/anthropic/response.go:113-173 | content blocks are opened and closed one at a time, at indexes 0, 1, 2, ..., with every piece inside its own block, if and only if no text or thinking comes before the first tool is announced or receives input |
| `AnthropicBrackets.PureStreamsBracketed` | internal/translate/anthropic/response.go:113-173 | streams without tools, and streams without text and thinking, are always bracketed |
| `AnthropicBrackets.DevinRunsBracketed` | internal/translate/anthropic/response.go:113-173 | the exact bracketing condition, for every run the mapper accepts |
| `AnthropicBrackets.SpeechBreaksBrackets` | internal/translate/anthropic/response.go:155-160 | a concrete accepted run, one text delta followed by one tool call, whose blocks are not bracketed |
| `AnthropicPlacement.StreamIsPlaced` | internal/translate/anthropic/response.go:104-302 | in every conforming stream, bracketed or not: the message starts first, under the announced id and model, and ends last; blocks are started and stopped at 0, 1, 2, ... without a gap, each stop once; and every piece goes to an index at which a block of its own kind was the last one started |
| `AnthropicPlacement.DevinRunsArePlaced` | internal/translate/anthropic/response.go:104-302 | the same for every run the mapper accepts |
| `MapperConformance.RunConforms` | internal/devin/stream_mapper.go:51-266 | every accepted run emits an event stream that the protocol automaton accepts from the first event to the terminal response, and the automaton ends with one entry per output index and the same tools as the mapper |
| `MapperResults.RunIsConserved` | internal/devin/stream_mapper.go:51-276 | in every accepted run the response comes first, one terminal event last and with the same id; the output has one item per allocated index, at most one reasoning item, one message and one item per tool id; each item is the concatenation of its deltas and equals the item announced as done, reasoning included; no text, thinking, tool or argument delta is without its item |
| `MapperResults.ConformingIsConserved` | internal/devin/stream_mapper.go:178-276 | the same conservation for every event stream that obeys the protocol |
| `MapperResults.RunIsNumbered` | internal/devin/stream_mapper.go:290-299 | every accepted run numbers its events 0, 1, 2, ... without a gap |
| `MapperResults.RunAccumulatesArguments` | internal/devin/stream_mapper.go:131-176 | every tool of the final output has the arguments accumulated from exactly the fragments addressed to it over all frames, by id or by continuing the active tool, and never more than the byte limit |
| `MapperResults.SnapshotsEndAsTheLast` | internal/devin/stream_mapper.go:158-163 | cumulative snapshots, each repeating the one before, accumulate to the last snapshot |
| `MapperResults.FragmentsEndAsConcatenation` | internal/devin/stream_mapper.go:158-163 | fragments that never start with the text so far accumulate to their concatenation |
| `StreamProtocol.FeedConsistent` | internal/devin/stream_mapper.go:51-266 | at every point of a stream that obeys the protocol, tools have distinct ids, at most one index is text and one thinking, and tools are finished in order, each arguments-done before its item |
| `ThrottleBounds.RejectedAtMostFive` | internal/store/admin_auth_throttle.go:18-171 | in every timed run over all sources, cleanups, locks, global blocks and database errors, a source that has not succeeded is rejected at most five times in any half-open window as long as the shortest of the reset, lock and retention durations |
| `ThrottleBounds.BreakerWithinLimit` | internal/store/admin_auth_throttle.go:47-66 | in every reachable state the breaker counts at most the limit of source locks, and exactly the limit if and only if the end of a block is stored, which stays stored after that end until the next check |
| `ThrottleBounds.LocksBounded` | internal/store/admin_auth_throttle.go:127-151 | any half-open window as long as the shorter of the global window and block holds at most 2 * limit - 1 new source locks |
| `ThrottleBounds.DefaultBounds` | internal/auththrottle/policy.go:26-37 | under the default policy a source without success is rejected at most five times in any 15 minutes, and any minute holds at most 49 new source locks |
| `ThrottleBlocks.BlockedExactly` | internal/auththrottle/guard.go:83-113 | in every state, an attempt whose check does not fail is told that it is blocked if and only if the stored end of the source or the global one lies ahead, verified or not, with the longer time that remains; and the counter of a blocked source stays |
| `ThrottleBlocks.OpenExactly` | internal/auththrottle/guard.go:98-113 | when nothing is held, the right password is authenticated and forgets the source, a wrong one is rejected and stores the next count with its block, and a database error changes no counter |
| `ThrottleBlocks.UncheckedTellsNothing` | internal/auththrottle/guard.go:86-92 | a check that fails answers unavailable and changes nothing |
| `ThrottleBlocks.RejectionBlocks` | internal/store/admin_auth_throttle.go:85-125 | in every timed run, the third, fourth and fifth rejection of a streak store a block as long as the policy says, and the others store none |
| `ThrottleBlocks.BlockHolds` | internal/auththrottle/guard.go:83-113 | from a rejection that blocks on, every attempt of that source before the block or the retention runs out is told so, whatever its credentials and whatever else happens in between, with at least the time that remains |
| `ThrottleBlocks.CheckReports` | internal/store/admin_auth_throttle.go:18-74 | a check reports a source unlocked exactly when it drops a locked one, and the release of the breaker exactly when a block has ended |
| `ThrottleBlocks.FailureReports` | internal/store/admin_auth_throttle.go:76-151 | a failure reports exactly the block it stores, and the arming of the breaker exactly when a block of it is stored |
| `JsonGrammar.SplitInvertsPrint` | internal/devin/stream_client.go:366-406 | any non-empty object of the grammar in RFC 8259 sections 2 to 7, values nested to any depth, printed with any insignificant whitespace, splits into exactly its key and value tokens, in order |
| `JsonGrammar.SplitEmptyObject` | internal/devin/stream_client.go:366-406 | an empty object, with any whitespace inside and around, splits into no members |
| `JsonGrammar.ValueRead` | internal/devin/stream_client.go:411-460 | wherever a printed value stands, the scan consumes exactly that value |
| `JsonGrammar.ValuePassed` | internal/devin/stream_client.go:418-450 | the delimiter stack is the same after any printed value as before it, at any depth |
| `JsonGrammar.NumberRead` | internal/devin/stream_client.go:496-535 | every number of the grammar is consumed to its last character |
| `JsonAcceptance.SplitExactly` | internal/devin/stream_client.go:366-460 | for every text, JSON or not: the splitter returns some tokens if and only if the text consists of them, that is, keys in quotes, colons, values that are strings, numbers, literals or structures with matching delimiters, commas and a closing brace; otherwise it refuses |
| `JsonAcceptance.StringExactly` | internal/devin/stream_client.go:466-494 | a scanned string ends exactly behind its closing quote, with every escape passed over |
| `JsonAcceptance.StructureExactly` | internal/devin/stream_client.go:418-450 | a scanned structure ends exactly where its delimiters have all been closed by matching ones |
| `StrictStringResults.AcceptedExactly` | internal/devin/stream_client.go:632-687 | for every byte string: accepted if and only if, trimmed, it is a quoted sequence of UTF-8 encodings of scalar values, backslashes followed by any byte but u, non-surrogate \u escapes and high-low pairs of surrogate escapes |
| `StrictStringResults.TokenAcceptedExactly` | internal/devin/stream_client.go:632-687 | a string token with the escapes of RFC 8259 section 7 is accepted if and only if its bytes are well-formed UTF-8 and its surrogate escapes are paired |
| `StrictStringResults.BodyExactly` | internal/devin/stream_client.go:637-685 | the same condition for the characters between the quotes |
| `StrictStringResults.WellFormedExactly` | internal/devin/stream_client.go:639-649 | bytes are accepted as UTF-8 if and only if they are the encoding, by RFC 3629 sections 3 and 4, of some sequence of Unicode scalar values |
| `StrictStringResults.RuneIsEncoding` | internal/devin/stream_client.go:639-649 | a rune that decodes is the encoding of a scalar value, so overlong forms and encoded surrogates are refused |
| `StrictStringResults.EncodingIsRune` | internal/devin/stream_client.go:639-649 | the encoding of every scalar value decodes with its own length |
| `TrimLaws.TrimSays` | internal/devin/stream_client.go:632-636 | trimming takes Unicode space characters off both ends of a text and leaves none there |
| `DevinLifecycleSafety.ExchangedAtMostOnce` | internal/oauth/devin/provider_lifecycle.go:97-170 | over all interleavings of starts, concurrent completions, cancel, expiry, resume, restart, compensation and other session operations, no state is exchanged twice, and what is exchanged is the verifier it was started with |
| `DevinLifecycleSafety.PublishedExactlyWithSession` | internal/store/sqlite.go:59-118 | in every step of every run, an account is upserted if and only if one session moves from consumed to completed, and the session then carries that account's id |
| `DevinLifecycleSafety.CompletedAfterExchange` | internal/oauth/devin/provider_lifecycle.go:136-170 | a completed Devin session was exchanged, and the account it names was upserted |
| `DevinLifecycleClearance.ExchangesAreCleared` | internal/oauth/devin/provider_lifecycle.go:97-136 | in every run, whatever is exchanged was asked for by a completion of the same state and code, whose code is not blank and whose session id is that of the session begun under the state, or absent |
| `DevinLifecycleOutcomes.CompletionComesTo` | internal/oauth/devin/provider_lifecycle.go:97-170 | what any completion comes to, on the rows it finds: with another session id, for an elapsed session or without a code it exchanges and publishes nothing and touches at most an overdue session, which expires; otherwise it exchanges exactly when the session still waits, with its verifier, and publishes exactly when the endpoint grants an account and the database stores it |
| `DevinAccountIds.OneIdentityOneAccount` | internal/store/accounts.go:72-121 | in every run, two publications of one fingerprint carry the same account id |
| `DevinLifecycleOutcomes.ResumesExactly` | internal/oauth/devin/provider_lifecycle.go:207-234 | a restart expires exactly the pending Devin sessions whose time has come, without their secrets, fails exactly the consumed ones and leaves every other row |
| `DevinLifecycleSettlement.ConsumedIsOwned` | internal/oauth/devin/provider_lifecycle.go:97-170 | in every run, a consumed Devin session is the work of exactly one completion that has yet to settle it, unless a restart caught it consumed, or the database refused to fail it, and nothing has settled it since |
| `DevinLifecycleSettlement.NoOrphans` | internal/oauth/devin/provider_lifecycle.go:97-170 | in a run without a restart and without a refused failing no session is left behind |
| `DevinLifecycleSettlement.RecoveryLeavesNone` | internal/oauth/devin/provider_lifecycle.go:207-234 | after the last restart or refused failing, failing the sessions left behind, one by one as the resume does, leaves none, whatever logins and completions interleave |
| `DevinLifecycleSettlement.SettledInTheEnd` | internal/oauth/devin/provider_lifecycle.go:97-234 | once every completion has ended and the sessions left behind have been failed, no Devin session is consumed |
| `OAuthInvariants.StepMoves` | internal/store/oauth_sessions.go:304-682 | every operation leaves every row as it was or moves it along an edge of the status graph of its flow, with the fields that edge fixes; rows leave the table only by cleanup |
| `OAuthInvariants.RunValid` | internal/store/oauth_sessions.go:304-682 | in every reachable table, terminal rows carry no device code, verifier or tokens; consumed rows belong to the callback flow and have neither these nor a pending payload; completed rows have an account id |
| `OAuthInvariants.TerminalIsAbsorbing` | internal/store/oauth_sessions.go:473-682 | a terminal row stays exactly as it is over any further operations, until a cleanup |
| `OAuthInvariants.ConsumedIsKept` | internal/store/oauth_sessions.go:675-682 | no operation removes a consumed row, cleanup included |
| `OAuthInvariants.AccountsExactly` | internal/store/oauth_sessions.go:304-345 | over any run, rows have an account id exactly when completed if and only if no session was created with an account id |
| `OAuthInvariants.PendingWithAccount` | internal/store/oauth_sessions.go:304-345 | a session created with an account id: a pending row that has one |
| `OAuthOutcomes.UsedInTime` | internal/store/oauth_sessions.go:473-512 | no operation consumes or authorizes a session at or after its expiry, and only the operation under its own state does |
| `OAuthOutcomes.CreatesExactly` | internal/store/oauth_sessions.go:304-345 | a session is created if and only if it is well formed and its state and session id are new, and then waits with what it was given |
| `OAuthOutcomes.GetsExactly` | internal/store/oauth_sessions.go:363-373 | a lookup finds exactly the row under provider, flow and state, without device codes unless it is an xAI device session |
| `OAuthOutcomes.AuthorizesExactly` | internal/store/oauth_sessions.go:473-489 | authorizing succeeds exactly for a pending device session before its expiry and a token, which it stores, and changes no other row |
| `OAuthOutcomes.ConsumesExactly` | internal/store/oauth_sessions.go:493-512 | consuming succeeds exactly for a pending callback session before its expiry with verifier and redirect, which it hands out and removes |
| `OAuthOutcomes.CompletesExactly` | internal/store/oauth_sessions.go:514-529 | completing succeeds exactly for an authorized device session or a consumed callback session and an account id, which then is all the row keeps |
| `OAuthOutcomes.PublishesExactly` | internal/store/oauth_sessions.go:536-562 | the same for the Devin transaction, on a consumed session |
| `OAuthOutcomes.FailsExactly` | internal/store/oauth_sessions.go:564-570 | failing succeeds exactly for a consumed callback session or a pending or authorized device session, whose secrets go |
| `OAuthOutcomes.EndsExactly` | internal/store/oauth_sessions.go:572-663 | cancelling and expiring succeed exactly for a pending or authorized session, whose secrets go |
| `OAuthOutcomes.EndsBySession` | internal/store/oauth_sessions.go:578-636 | the same by session id |
| `OAuthOutcomes.SweepsExactly` | internal/store/oauth_sessions.go:420-471 | the sweep expires exactly the pending sessions of its flow whose expiry has come |
| `OAuthOutcomes.RecoversExactly` | internal/store/oauth_sessions.go:640-649 | recovery fails exactly consumed callback sessions, whose payload it leaves |
| `OAuthOutcomes.RemovableExactly` | internal/store/oauth_sessions.go:675-682 | a cleanup may remove ended sessions and elapsed pending ones, authorized ones a day later, consumed ones never |
| `CooldownLaws.SweepsInvisible` | internal/store/cooldowns.go:68-74 | removing every expiry sweep from a timed run, in whatever batches they came, changes no answer of any lookup or rate limit |
| `CooldownLaws.BackoffLaw` | internal/store/cooldowns.go:41-66 | after k rate limits since the last reset, not counting those that came while a cooldown ran, the level is min(k, 6) and a cooldown that still runs ends min(60 * 2^(level - 1), 1800) seconds after the last |
| `CooldownLaws.RunFollows` | internal/store/cooldowns.go:22-66 | at every moment of a run the row is what the history of rate limits since the last reset determines |
| `CooldownMeaning.WritesExactly` | internal/routing/cooldown.go:23-61 | on every classification: which of relogin, disabling, the next backoff and an explicit cooldown is written, under which key and with which end; an account-wide failure writes under "*", and nothing is written exactly when none of them applies |
| `CooldownMeaning.AppliesExactly` | internal/routing/cooldown.go:23-61 | a failure changes at most the row it concerns; a rate limit without a length gets the next of the six delays unless one is still running, any other failure with a length ends then |
| `CooldownMeaning.ReadsExactly` | internal/store/cooldowns.go:22-34 | reading drops a cooldown that is over, and its backoff unless it is that of a rate limit, and leaves every other row as it is |
| `CooldownMeaning.SucceedsExactly` | internal/store/cooldowns.go:36-39 | a success ends the cooldown and backoff of its own row alone |
| `SchedulerLaws.OrderIsPermutation` | internal/routing/scheduler.go:67-100 | the order is a permutation of the eligible tier: every position once, none else |
| `SchedulerLaws.ScheduledExactly` | internal/routing/scheduler.go:43-100 | scheduling is refused if and only if no candidate can serve now; otherwise it orders, each position once, exactly the candidates that can: those of known capability when there is one, the unknown ones when there is none |
| `SchedulerLaws.OrderStarts` | internal/routing/scheduler.go:67-100 | the preferred account is first when it is eligible, the account under the cursor otherwise |
| `SchedulerLaws.EachFirstOnce` | internal/routing/scheduler.go:81-100 | with n eligible accounts and no preferred one, any n consecutive calls put each account first exactly once |
| `SchedulerLaws.RateLimitedExactly` | internal/routing/execute.go:334-369 | when nothing can be scheduled, the answer is a rate limit if and only if some enabled, valid, capable or unknown account of the provider exists; its retry time lies ahead, and scheduling the same snapshot then succeeds |
| `SchedulerMeaning.OrderSays` | internal/routing/scheduler.go:67-101 | told on the fields of the candidates and their positions: refused exactly when the tier is empty, and otherwise every position of the tier once, the preferred account first and the others around from the cursor, which moves on by one for this provider and model alone |
| `SchedulerMeaning.TierSays` | internal/routing/scheduler.go:43-66 | the tier holds exactly the candidates that are enabled, valid, of the wanted provider, not cooling for the model or for "*" and not known to lack it, of the known ones when any of them qualifies and of the unknown ones otherwise |
| `SchedulerMeaning.RetryExactly` | internal/routing/execute.go:334-369 | a retry time is given if and only if somebody could serve and all who could are held back by cooldowns, and it is the first moment at which one of them is free |
| `SchedulerMeaning.CursorsApart` | internal/routing/scheduler.go:81-88 | two requests share a cursor if and only if they want the same provider and model, or a model for any provider is named like a provider, a zero byte and the model |
| `ExecutionLaws.FailoverIsSafe` | internal/routing/execute.go:120-218 | over any replies, every action is on a candidate of the wanted provider; an account is used for generation at most once more than it was renewed, and renewed at most once; it is recorded at most once; one success is recorded for the account that served, and no other |
| `ExecutionLaws.StreamsClosed` | internal/routing/stream.go:124-199 | over any replies, every stream that is opened during failover is closed again, but for the one that is served |
| `ExecutionOutcomes.AnswerExactly` | internal/routing/execute.go:120-193 | from the replies alone: served by the first candidate that generates, in its first generation or in the second after a renewal, if and only if everybody before is of another provider or failed with a next try allowed and a store that answered; failed with exactly the first classification that allows no other, or the last one; broken exactly where a store does; none available exactly when all are foreign |
| `ExecutionOutcomes.ActionsExactly` | internal/routing/execute.go:120-218 | an action happens if and only if it is to be done for a candidate that is reached: who is asked, renewed, opened, closed, recorded, cleared and blamed, and with what, by its own reply |
| `RoutedStreamLaws.RecordedExactlyOnce` | internal/routing/stream.go:30-120 | under any interleaving of any number of Next and Close calls, usage is recorded at most once, never before the stream is terminal, and exactly once when it is terminal and all calls have returned |
| `RoutedStreamLaws.NothingLostOrRepeated` | internal/routing/stream.go:30-73 | under any interleaving, no event is delivered twice, and while the stream is not terminal every event taken from upstream is the held first one, delivered, or in the hands of a running call |
| `RoutedStreamLaws.DeliveredInOrder` | internal/routing/stream.go:30-73 | with at most one Next at a time, whatever Close calls run beside it, the events delivered are a prefix of the upstream events, in order |
| `RoutedStreamRecords.RecordSays` | internal/routing/stream.go:30-120 | under any interleaving, once all calls have returned, an ended stream has recorded the usage of the terminal event and cleared the account exactly when that event was handed over, as the last one, and otherwise one failure |
| `RoutedStreamRecords.BlamedExactly` | internal/routing/stream.go:81-98 | the account is blamed if and only if some Next failed first and its failure is no mere cancellation |
| `RoutedStreamEndings.NextReturns` | internal/routing/stream.go:30-73 | what a Next alone comes to on any stream it finds: closed without any effect exactly when the stream has ended, failed exactly when the caller gave up or nothing can be handed over, and otherwise the event that is due, which ends the stream exactly when it reports usage |
| `RoutedStreamEndings.CloseReturns` | internal/routing/stream.go:109-120 | a Close ends the stream, closes upstream and records a failure exactly when the stream had not ended |
| `ProtoLaws.CallRoundTrip` | internal/devin/proto/proto.go:253-262 | a tool call decodes to itself when its encoding is within the size limit, and is refused when it is not |
| `ProtoLaws.StatsRoundTrip` | internal/devin/proto/proto.go:336-350 | usage statistics decode to themselves within the size limit, and are refused beyond it |
| `ProtoLaws.JwtRoundTrip` | internal/devin/proto/proto.go:221-229 | a user token response decodes to itself |
| `ProtoLaws.CallsMerge` | internal/devin/proto/proto.go:465-505 | two tool call encodings, concatenated, decode to the field-wise merge in which the last one set wins |
| `ProtoLaws.StatsMerge` | internal/devin/proto/proto.go:507-570 | likewise for usage statistics |
| `ProtoLaws.JwtsMerge` | internal/devin/proto/proto.go:402-433 | likewise for user token responses |
| `ProtoLaws.CallIgnoresUnknown` | internal/devin/proto/proto.go:465-505 | a well-formed field with a foreign number, put between any fields, changes nothing |
| `ProtoLaws.StatsIgnoreUnknown` | internal/devin/proto/proto.go:507-570 | likewise for usage statistics |
| `ProtoLaws.JwtIgnoresUnknown` | internal/devin/proto/proto.go:402-433 | likewise for user token responses, where a known number with another wire type is foreign too |
| `ProtoLaws.ResponseIgnoresUnknown` | internal/devin/proto/proto.go:572-677 | likewise for chat responses |
| `ProtoLaws.ResponseCollectsCalls` | internal/devin/proto/proto.go:572-677 | embedded tool calls are collected in order, each decoded to itself, up to the limit on their number and refused beyond it |
| `ProtoLaws.DecodeAppend` | internal/devin/proto/proto.go:402-570 | decoding a concatenation is decoding the second part into the result of the first |
| `ProtoLaws.UnknownIgnored` | internal/devin/proto/proto.go:450-456 | what no decoder reacts to can be inserted between any two fields |
| `ProtoMeaning.CallMeans` | internal/devin/proto/proto.go:465-505 | for every list of fields: a tool call is refused exactly when a known field is no byte string, and otherwise id, name and arguments are those of the last fields 1, 2 and 3 |
| `ProtoMeaning.StatsMean` | internal/devin/proto/proto.go:507-570 | likewise for usage statistics, fields 2 to 5 and 7, 9, 10, 11 |
| `ProtoMeaning.JwtMeans` | internal/devin/proto/proto.go:402-433 | likewise for user token responses, which refuse nothing |
| `ProtoMeaning.ResponseMeans` | internal/devin/proto/proto.go:572-677 | for every list of fields: a chat response is refused exactly when a known field has a wrong wire type or range, a nested message cannot be read or there are more than 4096 tool calls, and otherwise each of its members is that of the last field of its number and the tool calls are all of theirs in order |
| `ProtoWire.ReadsVarint` | internal/devin/proto/proto.go:175-181 | every 64-bit number is read back from its base-128 form, with everything behind it left over |
| `ProtoWire.ReadsField` | internal/devin/proto/proto.go:168-181 | every well-formed field is read back, with everything behind it left over |
| `ProtoWire.FieldLocal` | internal/devin/proto/proto.go:442-456 | reading a field does not depend on what follows it |
| `ReconstructLaws.ReconstructsExactly` | internal/sessions/reconstruct.go:78-158 | a request is reconstructed as a list of items if and only if its chain can be walked, every reference resolves, and both the item array and the body are within the limit: nothing else is refused and no other list is made |
| `ReconstructLaws.ReconstructionIsFaithful` | internal/sessions/reconstruct.go:78-158 | the result lists, oldest response first, inputs and then kept outputs of a chain of at most 256 distinct responses, and then the current items; no reference is left; the preferred account is that of the latest response |
| `ReconstructLaws.WalkExactly` | internal/sessions/reconstruct.go:83-104 | the walk succeeds if and only if the links reach a first response within 256 steps, and then visits each id once; on a cycle it stops with an error |
| `ReconstructLaws.BudgetIsExact` | internal/sessions/reconstruct.go:35-77 | at every moment the byte count is the exact length of the items as a JSON array and within the limit |
| `ReconstructLaws.BudgetMatchesEmitted` | internal/sessions/reconstruct.go:135-158 | the count is the length of what is emitted if and only if there is an item: an empty list is emitted as null |
| `ReconstructLaws.EmptyInputEmitted` | internal/sessions/reconstruct.go:135-158 | a request without history and with an empty input: reconstructed with no item, counted as two bytes, emitted as four |
| `ReconstructLaws.PlainElementsAppended` | internal/sessions/reconstruct.go:35-77 | without references, a strict list is taken if and only if all its elements are of a kept kind, and a lenient one always; the kept elements are appended in order |
| `SseLaws.FramesRead` | internal/xai/sse.go:85-127 | any list of event names and data without line feeds and without a trailing carriage return, written one after the other, reads back as exactly that list, whether the stream then ends or breaks |
| `SseLaws.FrameRead` | internal/xai/sse.go:85-127 | one such frame is read back whole, with everything behind it left unread |
| `SseLaws.UnfinishedRead` | internal/xai/sse.go:85-127 | data cut off behind its line is an event if and only if the stream ends there rather than breaks |
| `SseLaws.CutLineRead` | internal/xai/sse.go:85-127 | data cut off inside its line is an event, even when the stream breaks |
| `SseMeaning.EventMeans` | internal/xai/sse.go:85-127 | for any lines before a blank one, with any fields, comments, spaces and line ends: the event has the name of the last event line and the data of all data lines joined by line feeds, and what lies behind stays unread; blank lines before any data end nothing and keep the name |
| `SseMeaning.EndMeans` | internal/xai/sse.go:85-127 | a stream that ends behind whole lines yields what they carried if and only if there is data and the stream did not break |
| `SseMeaning.CutMeans` | internal/xai/sse.go:85-127 | a stream cut off inside a field yields what has come, even when it breaks, and one cut off inside a comment only at its end |
| `SseMeaning.FrameSent` | internal/translate/registry/registry.go:66-77 | a frame is an event line, if it has a name, a data line and a blank one |
| `EventDataSteps.DataTakenExactly` | internal/translate/registry/registry.go:53-64 | the data written into a frame is taken back unchanged if and only if the frame has no name and the data neither begins with a blank nor ends with a line break; out of a named frame nothing is taken |
| `StreamMapper.StreamMapper.NewStreamMapper` | internal/devin/stream_mapper.go:41-49 | a mapper is made unless the model is blank or the limit not positive; a missing response id gets its default |
| `StreamMapper.StreamMapper.constructor` | internal/devin/stream_mapper.go:48 | a new mapper has emitted nothing and allocated no index |
| `StreamMapper.StreamMapper.Push` | internal/devin/stream_mapper.go:51-129 | one frame takes the fields and the emitted events to the specified step, which the run lemmas above are about; a refused frame emits nothing, a frame after the end is ignored |
| `StreamMapper.StreamMapper.Announce` | internal/devin/stream_mapper.go:71-78 | the response is announced once, before anything else |
| `StreamMapper.StreamMapper.PushThinking` | internal/devin/stream_mapper.go:89-101 | thinking is added under one index and emitted |
| `StreamMapper.StreamMapper.PushText` | internal/devin/stream_mapper.go:102-120 | text first finishes open reasoning, then is added under one index and emitted |
| `StreamMapper.StreamMapper.PushTool` | internal/devin/stream_mapper.go:131-176 | one tool call delta: by id or continuing the active tool; a nameless new tool, a changed name and an exceeded limit are refused |
| `StreamMapper.StreamMapper.AddTool` | internal/devin/stream_mapper.go:145-153 | a new tool takes the next output index and is announced with empty arguments |
| `StreamMapper.StreamMapper.AddArguments` | internal/devin/stream_mapper.go:157-175 | a fragment or snapshot adds what is new to the arguments and emits that, within the limit |
| `StreamMapper.StreamMapper.PushTools` | internal/devin/stream_mapper.go:121-127 | tool call deltas are taken in order until one is refused |
| `StreamMapper.StreamMapper.FinishReasoning` | internal/devin/stream_mapper.go:271-277 | the reasoning item is stored under its index and announced as done |
| `StreamMapper.StreamMapper.Finalize` | internal/devin/stream_mapper.go:178-266 | reasoning, text and tools are closed in this order and the terminal response is emitted; invalid arguments or an error stop are refused; a second call does nothing |
| `StreamMapper.StreamMapper.CloseText` | internal/devin/stream_mapper.go:207-215 | the message is stored under its index and announced, if there is text |
| `StreamMapper.StreamMapper.CloseTools` | internal/devin/stream_mapper.go:216-234 | the tools are closed in the order they appeared, until one has invalid arguments |
| `StreamMapper.StreamMapper.CloseTool` | internal/devin/stream_mapper.go:217-233 | a tool with valid arguments gets its arguments-done and its item, stored under its index |
| `StreamMapper.StreamMapper.CollectOutput` | internal/devin/stream_mapper.go:235-240 | the stored items in index order |
| `StreamMapper.StreamMapper.Terminate` | internal/devin/stream_mapper.go:241-265 | the terminal event carries the stored items, the status its stop reason means, and the usage; the mapper is then closed |
| `StreamMapper.StreamMapper.MakeEvent` | internal/devin/stream_mapper.go:290-299 | an event takes the next sequence number |
| `CanonicalEvents.FindTerminalResponse` | internal/translate/common/common.go:124-139 | the response of the last terminal event that carries one; none exactly when no event does |
| `ChatTranslator.StreamState.Stream` | internal/translate/openai/chatcompletions/response.go:102-198 | one event takes the translator state and the chunk to the specified step, which the agreement lemmas above are about |
| `ChatTranslator.StreamState.AnnounceChatFunction` | internal/translate/openai/chatcompletions/response.go:200-218 | a tool is announced under the next chat index, remembered under its output index and call id |
| `ChatTranslator.Respond` | internal/translate/openai/chatcompletions/response.go:45-100 | the answer folds text, reasoning and tool calls out of the terminal response, with its finish reason and usage |
| `AnthropicTranslator.StreamState.Stream` | internal/translate/anthropic/response.go:104-302 | one event takes the translator state and the frames to the specified step, which the delivery and bracketing lemmas above are about |
| `AnthropicTranslator.StreamState.CloseBlock` | internal/translate/anthropic/response.go:118-124 | an open block is stopped and the index moves on |
| `AnthropicTranslator.StreamState.Start` | internal/translate/anthropic/response.go:125-132 | a block of another kind is stopped before one is started; the same kind continues |
| `AnthropicTranslator.StreamState.PumpFunctions` | internal/translate/anthropic/response.go:133-173 | while no tool is active, the pending tool with the least output index is opened with its buffered input, and closed at once if it is already done |
| `AnthropicTranslator.StreamState.OpenFunction` | internal/translate/anthropic/response.go:143-166 | opening a tool starts its block at the current index and sends what was buffered |
| `AnthropicTranslator.StreamState.NextPending` | internal/translate/anthropic/response.go:136-142 | the least pending output index |
| `AnthropicTranslator.StreamState.FunctionDone` | internal/translate/anthropic/response.go:217-229 | the active tool sends what is left, closes, and lets the next ones through; another tool is marked as done |
| `AnthropicTranslator.StreamState.ItemFinished` | internal/translate/anthropic/response.go:231-282 | a finished item: the signature of open thinking, text never streamed, or the end of a tool |
| `AnthropicTranslator.StreamState.Terminate` | internal/translate/anthropic/response.go:283-297 | pending tools are let through, open blocks closed, and the stop reason and usage sent |
| `AnthropicTranslator.ContentOfItem` | internal/translate/anthropic/response.go:59-91 | the content blocks of one output item |
| `AnthropicTranslator.Respond` | internal/translate/anthropic/response.go:47-102 | the answer lists the content blocks of the terminal response in order, with its stop reason and usage |
| `AdminAuthThrottle.AdminAuthThrottleRepository.Check` | internal/store/admin_auth_throttle.go:18-74 | expired locks and windows are cleared and reported; the later of the source's and the global block is the answer |
| `AdminAuthThrottle.AdminAuthThrottleRepository.RecordFailure` | internal/store/admin_auth_throttle.go:76-125 | a failure counts on, or restarts after a stale counter; the third, fourth and fifth block for longer and longer, and the fifth counts as a source lock |
| `AdminAuthThrottle.AdminAuthThrottleRepository.RecordSourceLock` | internal/store/admin_auth_throttle.go:127-151 | a source lock is counted in the current window or starts a new one, and arms the breaker at the limit |
| `AdminAuthThrottle.AdminAuthThrottleRepository.ResetSource` | internal/store/admin_auth_throttle.go:153-163 | a success forgets the source and reports what was forgotten |
| `AdminAuthThrottle.AdminAuthThrottleRepository.Cleanup` | internal/store/admin_auth_throttle.go:165-171 | some batch of the sources last updated at or before the given time is removed, as large as the batch size allows, and nothing else changes |
| `AdminAuthThrottle.Guard.NewGuard` | internal/auththrottle/guard.go:67-81 | a guard is made if and only if there is a repository and the policy is valid |
| `AdminAuthThrottle.Guard.Evaluate` | internal/auththrottle/guard.go:83-113 | a blocked attempt is not verified and changes no counter; otherwise a success resets the source and a failure is recorded; when the database fails, at the check or at the write, the attempt is told nothing |
| `AdminAuthThrottle.Guard.RecordFailure` | internal/auththrottle/guard.go:119-139 | as an attempt that fails, with the same database errors |
| `JsonScanner.SplitRawJSONObjectMembers` | internal/devin/stream_client.go:366-406 | the members of an object as raw key and value tokens, or a refusal |
| `JsonScanner.ScanMemberAt` | internal/devin/stream_client.go:374-391 | one key, its colon and its value as raw tokens, and the place behind them, or a refusal |
| `JsonScanner.ScanJSONValue` | internal/devin/stream_client.go:411-460 | the end of the value at a position, or a refusal |
| `JsonScanner.ScanStructure` | internal/devin/stream_client.go:418-450 | the end of an object or array by a stack of open delimiters, string contents passed over |
| `JsonScanner.ScanJSONString` | internal/devin/stream_client.go:466-493 | the position behind the closing quote, or a refusal |
| `JsonScanner.ScanJSONNumber` | internal/devin/stream_client.go:496-535 | the end of the number at a position, or a refusal |
| `JsonScanner.SkipJSONWhitespace` | internal/devin/stream_client.go:547-557 | the first position that is not JSON whitespace |
| `StrictString.StrictJSONStringValid` | internal/devin/stream_client.go:632-687 | the verdict that the exactness lemmas above are about |
| `StrictString.ScanHexEscape` | internal/devin/stream_client.go:659-684 | a \u escape is passed, with its partner when it is a high surrogate, exactly when the rest can still be valid |
| `StrictString.ParseHex` | internal/devin/stream_client.go:691-712 | the value of four hexadecimal digits, or a refusal |
| `OAuthSessions.OAuthSessionRepository.Create` | internal/store/oauth_sessions.go:304-345 | a new session is stored with its secrets split off, unless its key is taken or invalid |
| `OAuthSessions.OAuthSessionRepository.Get` | internal/store/oauth_sessions.go:363-373 | the row under provider, flow and state, or not found |
| `OAuthSessions.OAuthSessionRepository.Mutate` | internal/store/oauth_sessions.go:767-801 | one transaction: the row in one of the given statuses is changed and written, or nothing is |
| `OAuthSessions.OAuthSessionRepository.MutateBySession` | internal/store/oauth_sessions.go:600-636 | likewise for the row under a session id; not found exactly when no row has the id |
| `OAuthSessions.OAuthSessionRepository.Authorize` | internal/store/oauth_sessions.go:473-489 | only a pending device session is authorized, and then keeps its tokens for the completion |
| `OAuthSessions.OAuthSessionRepository.Consume` | internal/store/oauth_sessions.go:493-512 | only a pending, unexpired callback session is consumed; its verifier is handed out and no longer stored |
| `OAuthSessions.OAuthSessionRepository.Complete` | internal/store/oauth_sessions.go:514-529 | only an authorized device or consumed callback session is completed, with the account id and without secrets |
| `OAuthSessions.OAuthSessionRepository.CompleteConsumedDevin` | internal/store/oauth_sessions.go:536-562 | only a consumed Devin session is completed, with the account id and without secrets |
| `OAuthSessions.OAuthSessionRepository.Fail` | internal/store/oauth_sessions.go:564-570 | only a consumed callback session or a pending or authorized device session fails, and loses its secrets |
| `OAuthSessions.OAuthSessionRepository.Cancel` | internal/store/oauth_sessions.go:572-574 | a pending or authorized session is cancelled, and loses its secrets |
| `OAuthSessions.OAuthSessionRepository.Expire` | internal/store/oauth_sessions.go:651-653 | a pending or authorized session expires, and loses its secrets |
| `OAuthSessions.OAuthSessionRepository.CancelBySessionID` | internal/store/oauth_sessions.go:578-586 | likewise under a session id |
| `OAuthSessions.OAuthSessionRepository.ExpireBySessionID` | internal/store/oauth_sessions.go:590-598 | likewise under a session id |
| `OAuthSessions.OAuthSessionRepository.FailConsumedByHash` | internal/store/oauth_sessions.go:640-649 | a consumed session fails; its payload, already without secrets, is not rewritten |
| `OAuthSessions.OAuthSessionRepository.ExpirePendingBefore` | internal/store/oauth_sessions.go:420-471 | exactly the elapsed pending sessions of a flow expire, and are counted |
| `OAuthSessions.OAuthSessionRepository.Cleanup` | internal/store/oauth_sessions.go:675-682 | some batch of the old terminal, elapsed pending and long authorized rows is removed, as large as the batch size allows, and nothing else changes |
| `DevinLifecycle.AccountRepository.UpsertLogin` | internal/store/accounts.go:72-121 | one account per login fingerprint: a known one keeps its id, a new one takes the fresh id |
| `DevinLifecycle.Client.Exchange` | internal/oauth/devin/provider_lifecycle.go:148 | the exchange happens with the code and the verifier handed out by the session |
| `DevinLifecycle.DevinOAuthTransaction.TryComplete` | internal/store/sqlite.go:81-118 | both tables change or, on any failure, neither does |
| `DevinLifecycle.DevinOAuthTransaction.Complete` | internal/store/sqlite.go:59-79 | after a failure the consumed session is failed, or left consumed when that fails too, and never made pending again |
| `DevinLifecycle.ProviderLifecycle.Complete` | internal/oauth/devin/provider_lifecycle.go:97-134 | run alone, with a clock that may differ at each of its readings, a completion ends as the concurrent machine does when only it acts: looked up, expired if overdue, matched with the session id, code required, then completed |
| `DevinLifecycle.ProviderLifecycle.CompleteReady` | internal/oauth/devin/provider_lifecycle.go:136-170 | run alone, with a clock that may differ at each of its readings: consume, exchange, publish, with the failure branches of each |
| `DevinLifecycle.ProviderLifecycle.SessionWithExpiry` | internal/oauth/devin/provider_lifecycle.go:236-251 | an overdue pending session is expired before it is seen |
| `DevinLifecycle.ProviderLifecycle.FailCorruptPending` | internal/oauth/devin/provider_lifecycle.go:253-258 | a session that could not be consumed but is still pending is cancelled |
| `DevinLifecycle.ProviderLifecycle.FailDetached` | internal/oauth/devin/provider_lifecycle.go:260-264 | the session fails, or stays as it is when the database refuses, which is ignored |
| `DevinLifecycle.ProviderLifecycle.FailInterrupted` | internal/oauth/devin/provider_lifecycle.go:215-228 | of the listed sessions, exactly the consumed ones are failed |
| `DevinLifecycle.ProviderLifecycle.Resume` | internal/oauth/devin/provider_lifecycle.go:207-234 | after a restart, elapsed pending sessions expire, interrupted ones fail, and exactly the still usable pending ones are returned |
| `DevinLifecycleSteps.OnlyActing` | internal/oauth/devin/provider_lifecycle.go:97-170 | in the concurrent machine, steps of one completion alone lead to what that completion does when run alone |
| `Cooldowns.CooldownRepository.Put` | internal/store/cooldowns.go:18-21 | the row is replaced |
| `Cooldowns.CooldownRepository.Get` | internal/store/cooldowns.go:22-34 | a cooldown that is over is cleared before it is returned |
| `Cooldowns.CooldownRepository.Ready` | internal/store/cooldowns.go:36-39 | an existing row is reset to no cooldown and no backoff |
| `Cooldowns.CooldownRepository.AdvanceRateLimit` | internal/store/cooldowns.go:41-66 | a cooldown that still runs is kept; otherwise the level rises by one, up to six, and sets the next cooldown |
| `Cooldowns.CooldownRepository.PromoteExpired` | internal/store/cooldowns.go:68-74 | some batch of the rows that are over is cleared, as large as the batch size allows, and nothing else changes |
| `Cooldowns.CooldownManager.Apply` | internal/routing/cooldown.go:23-61 | which of relogin, disabling, backoff, explicit cooldown or nothing a failure writes, and on which account or row; fails only for an unknown account |
| `Cooldowns.CooldownManager.Success` | internal/routing/cooldown.go:62-64 | a success resets the row of the account and model |
| `Scheduler.Scheduler.Order` | internal/routing/scheduler.go:43-101 | the order and the advanced cursor that the permutation and fairness lemmas above are about; a refusal leaves the cursor |
| `Scheduler.Tiers` | internal/routing/scheduler.go:44-66 | the usable accounts that are not cooling, in order: known capable ones, and those of unknown capability |
| `Scheduler.Scheduler.Rotate` | internal/routing/scheduler.go:93-99 | the accounts from the cursor on, around, without the preferred one |
| `Scheduler.Scheduler.FindPreferred` | internal/routing/scheduler.go:74-80 | the first account with the preferred id, or none |
| `Scheduler.AllCoolingClassification` | internal/routing/execute.go:334-369 | the earliest instant at which a capable account, or failing those an unknown one, is available; none unless all cool down |
| `Execution.Execute` | internal/routing/execute.go:120-193 | the actions and the answer over all candidates, for both the collected and the streamed form, which the failover lemma above is about |
| `Execution.TryCandidate` | internal/routing/execute.go:133-187 | what is done with one candidate and whether to stop, skip or go on |
| `Execution.Generation` | internal/routing/stream.go:159-167 | one generation; a stream whose first event fails is closed again |
| `Execution.RecoverAuthentication` | internal/routing/execute.go:199-218 | one renewal after an upstream refusal; the classification to go on with is the recovery's when it has one and the original otherwise |
| `RoutedStream.RoutedStream.constructor` | internal/routing/stream.go:200-202 | a new stream holds the first event and has recorded nothing |
| `RoutedStream.RoutedStream.Next` | internal/routing/stream.go:30-73 | run alone, ends as the interleaved machine does when only it acts: cancelled, closed, first event, failure or the next event |
| `RoutedStream.RoutedStream.HandOver` | internal/routing/stream.go:58-72 | an event is delivered; a terminal one closes and records with its own usage |
| `RoutedStream.RoutedStream.FinishFailure` | internal/routing/stream.go:81-98 | the first failure closes and records, and blames the account unless the caller cancelled |
| `RoutedStream.RoutedStream.FinishSuccess` | internal/routing/stream.go:74-80 | a finished stream resets the cooldown, records and closes |
| `RoutedStream.RoutedStream.Record` | internal/routing/stream.go:99-108 | only the first record counts |
| `RoutedStream.RoutedStream.Close` | internal/routing/stream.go:109-120 | closing an unfinished stream records a failure; closing a finished one records nothing |
| `ProtoMessages.AppendString` | internal/devin/proto/proto.go:168-174 | a string is appended as a field of its own, an empty one not at all |
| `ProtoMessages.AppendNumber` | internal/devin/proto/proto.go:175-181 | a number is appended as a field of its own, zero not at all |
| `ProtoMessages.MarshalJwt` | internal/devin/proto/proto.go:221-229 | the encoding of the fields that are set, in order |
| `ProtoMessages.MarshalCall` | internal/devin/proto/proto.go:253-262 | likewise |
| `ProtoMessages.MarshalStats` | internal/devin/proto/proto.go:336-350 | likewise |
| `ProtoMessages.ReadJwt` | internal/devin/proto/proto.go:402-433 | the loop over the input computes the field-by-field decoding that the laws above are about |
| `ProtoMessages.ReadCall` | internal/devin/proto/proto.go:465-505 | likewise |
| `ProtoMessages.ReadStats` | internal/devin/proto/proto.go:507-570 | likewise |
| `ProtoMessages.ReadResponse` | internal/devin/proto/proto.go:572-677 | likewise |
| `Reconstruct.HistoryBuilder.Append` | internal/sessions/reconstruct.go:35-77 | the items added, or the first error met, in the given mode |
| `Reconstruct.WalkChain` | internal/sessions/reconstruct.go:83-104 | the ids from the given response back, or why the walk stops |
| `Reconstruct.NormalizeCurrent` | internal/sessions/reconstruct.go:135-158 | the current items behind the history, within the size of the body |
| `Reconstruct.ReconstructRequest` | internal/sessions/reconstruct.go:78-134 | the whole reconstruction that the exactness lemma above is about |
| `SseParser.SSEParser.ReadEvent` | internal/xai/sse.go:85-127 | the next event and the unread rest, or that there is none |
| `SseParser.WriteSSE` | internal/translate/registry/registry.go:66-77 | the frame that the reading lemmas above take apart |
| `EventDataSteps.TakeEventData` | internal/translate/registry/registry.go:53-64 | the data behind the prefix, trimmed of blanks before and line breaks behind |

## Left out

- Nil receivers and nil arguments: a missing object or frame does not occur in the model.
- Encoding and decoding of event bodies as JSON, invalid UTF-8 inside them, and token counts above 2^53: events are values.
- The creation time of an answer. The model name is proved for each answer alone (`ChatMeaning.ChunksAreNamed`, `ChatMeaning.DevinAnswersFrames`), because the actual model may arrive after the response was announced, so that streamed and collected answers can differ in it.
- ChatAgreement.StreamingAgrees: the protocol is that of the Devin mapper, in which a tool's item id is its call id and nothing is refused by the model; of streams of other shape only what is said and the collected answers are characterised (`ChatOfAnyStream`, `AnthropicOfAnyStream`), not the tools while streaming.
- AnthropicTranslator.Respond: keeps the arguments of a tool as the string they came as, because decoding them is the JSON library's work.
- AnthropicTranslator.ContentOfItem: likewise keeps the arguments of a tool as a string.
- The mapper's fields are grouped into five records, and the translators' likewise; the grouping has no counterpart in the program.
- `ShortName` and `ToolNames`: inverting shortened names depends on a hash that does not collide; one name map is passed to both answers.
- AdminAuthThrottle.Guard.NewGuard: a missing source hasher, which the program refuses, does not occur.
- AdminAuthThrottle.Guard.Evaluate: the outcome of verification is a given boolean.
- SQL, encryption, hashing and random ids: tables are maps, the hash of a state is the state, envelopes are the payload itself, fresh ids are parameters.
- Database errors other than those of a login attempt, at each step of the two-table transaction and when a session is to be failed; and commits that report an error after they happened.
- DevinLifecycle.AccountRepository.UpsertLogin: keeps the id of the account of each fingerprint and no other column.
- DevinLifecycle.Client.Exchange: the answer of the endpoint is a parameter.
- DevinLifecycle.ProviderLifecycle.Resume: returns the usable rows rather than their projections, and the database does not fail.
- DevinLifecycle.ProviderLifecycle.Complete: requests that share a result by their key are not merged, so the machine has more interleavings than the program.
- `Start`, `Cancel` and `Status` of the Devin login are moves of the machine, not methods; projections of sessions for the management interface are not modelled.
- The foreign key from cooldown rows to accounts, and `last_error` texts.
- ThrottleBounds.RejectedAtMostFive: counts the rejections since the source last succeeded; fractions of a second are not modelled.
- `prepare` and `candidates` beyond the cooldowns they read: capability listing and credential usability arrive as the fields of a candidate.
- Execution.Execute: one loop with a flag stands for both `Execute` and `Executor.Stream`, which differ in what a success is and does; replies of accounts and stores are a parameter.
- SchedulerLaws.RateLimitedExactly: does not claim that the retry time is the earliest instant at which scheduling succeeds, which is false when an account of unknown capability recovers before the known ones; `SchedulerMeaning.RetryExactly` says which instant it is.
- The wrap-around of the scheduler's 64-bit cursor.
- RoutedStreamLaws.DeliveredInOrder: needs at most one `Next` at a time; two readers may deliver out of order, and then only the absence of loss and repetition is proved.
- Contexts, timeouts and the errors of recording and closing, which the program ignores.
- ProtoMessages.ReadResponse: no encoder exists for chat responses, so its laws are about lists of encoded fields and not a round trip; groups (wire types 3 and 4) are treated as malformed.
- Messages that are only encoded (`Metadata`, `GetChatMessageRequest` and their parts).
- Reconstruct.NormalizeCurrent: how the body is encoded around its items is a parameter.
- Reconstruct.ReconstructRequest: decoding a stored request or response into its elements, and encoding an item, are parameters; expiry of stored responses is part of the repository that is passed in, and the repository does not fail.
- SseParser.SSEParser.ReadEvent: leaves out the idle timer and cancellation.
- HTTP clients, TLS, compression, OIDC, the xAI login's provider side, refresh of credentials, web and admin interfaces, configuration and logging.
