# Realtime chat server: a Dafny model of its session core

This project models the session orchestration of a real-time chat server. A
browser opens a WebSocket. The server keeps a per-connection session record
in a remote store and logs every user message, tool call, tool result,
AI reply and error as an event. An LLM agent answers each message. It can
call tools (weather, calculator, knowledge search, clock) before it
streams its reply word by word. When the socket closes, a post-processing
step either deletes the empty session or summarises, names and finalises it.

The model has one module per source file, plus two helper modules:

- `Wrappers`: `Option` and `Result`.
- `Strings`: the Python string operations the core uses (`strip`,
  `lower`, `in`, `split`, `join`, `replace`, slicing).
- `Models` (app/models.py): the three enums with their wire strings, the
  record shapes with their defaults, JSON values, and the outbound frames.
- `Tools` (app/llm/tools.py and `execute_tool` in app/agent.py): dispatch by
  name with argument binding, and the knowledge search over its fixed table.
  The search is a loop proved against a specification function. It also
  holds the result shape of the calculator.
- `Store` (database.py): the client cache and its sticky enable flag, as a
  `Database` class. The remote tables are a map of session rows and a
  sequence of event rows. Every query and write of the core is a method.
  Whether the remote store answers is a countdown `budget`: the number of
  remote calls that still succeed, or `None` for a store that never fails.
  Each call that reaches the store spends one unit. This models failures at
  any point, such as partway through the cleanup loop.
- `Agent` (app/agent.py): `ConversationAgent` as a class over its history,
  its load flag and its chat seed. The LLM backend of one turn is a finite
  script: a list of tool requests, then a final reply that is text, empty,
  or an exception. `Exchange` is the chunk sequence one turn yields, and
  `ProcessMessage` is proved against it.
- `Sessions` (app/services/session.py): `SessionManager` as a class over
  `session_id`, `start_time` and `is_active`.
- `Summary` (app/services/summary.py): chat-name post-processing, the
  transcript, the summary outcome and `process_session_end`.
- `Server` (main.py): `websocket_session` and `send_ws_message`. The socket is a class:
  - its two states;
  - whether the peer is gone, so a send fails silently;
  - the list of frames it delivered.

  The session is built from:
  - classification of inbound frames;
  - the chunk→frame and chunk→log mapping;
  - the relay loop, each received frame, the receive loop and the teardown.

Times are whole seconds, passed in as parameters. Ids the store or
`uuid4` would generate are parameters too. The same goes for ISO
formatting and parsing, the LLM summariser, the LLM namer, and the
behaviour of the tools whose bodies are random or read the clock.

`websocket_session` models the code as written on one point that is easy to
miss. `start_session` adopts the id the store assigns (`StartSession`
ensures `sessionId == freshId`), so events are logged under that id. The
agent and the scheduled post-processing, however, keep the id from the path
(main.py:165, 251). The model keeps both ids as the source does.

## Model

| member | source | states |
|---|---|---|
| Strings.StripSpace | main.py:176 | `strip()` gives "" exactly when every character is whitespace; otherwise the result starts and ends with a non-space |
| Strings.Strip | app/services/summary.py:66-68 | the result is a contiguous slice of the input with only dropped characters removed from either end; it is empty iff every character is dropped |
| Strings.StripBothEnds | app/services/summary.py:66-68 | stripping the left then the right end keeps exactly the slice between the dropped prefix and the dropped suffix |
| Strings.Lower | app/llm/tools.py:88 | `lower()` keeps the length and lowers each character independently |
| Strings.ContainsAt | app/llm/tools.py:92 | a needle found at any offset makes `in` true |
| Strings.OccurrenceOf | app/llm/tools.py:92 | `in` being true yields an offset where the needle occurs |
| Strings.Take | app/agent.py:262 | `s[:n]` is the prefix of length min(n, len s) |
| Strings.Split | app/agent.py:230 | `split(sep)` returns at least one piece |
| Strings.SplitPiecesAvoidSeparator | app/agent.py:230 | no piece of `split(sep)` contains the separator |
| Strings.SplitLength | app/agent.py:230 | `split(sep)` has one more piece than the input has separators |
| Strings.JoinSplit | app/agent.py:230 | joining the pieces of `split(sep)` with `sep` gives back the input |
| Strings.ConcatAppend | app/agent.py:230-236 | concatenation distributes over appending lists of strings |
| Strings.ReplaceChar | app/services/session.py:82 | after `replace(c, w)` with `c` not in `w`, `c` does not occur |
| Strings.ReplaceAbsent | app/services/session.py:82 | `replace` of a character that does not occur is the identity |
| Models.ParseSessionStatus | app/models.py:9-12 | decoding succeeds exactly on the three wire strings and returns the variant with that wire string |
| Models.SessionStatusRoundTrip | app/models.py:9-12 | decoding the wire string of a status gives it back |
| Models.ParseEventType | app/models.py:15-21 | decoding succeeds exactly on the six wire strings and returns the variant with that wire string |
| Models.EventTypeRoundTrip | app/models.py:15-21 | decoding the wire string of an event type gives it back |
| Models.ParseWSMessageType | app/models.py:24-33 | decoding succeeds exactly on the nine wire strings, ping and pong included |
| Models.WSMessageTypeRoundTrip | app/models.py:24-33 | decoding the wire string of a frame type gives it back |
| Models.WireStringsDistinct | app/models.py:9-33 | within each enum, distinct variants have distinct wire strings |
| Models.NewSession | app/models.py:44-52 | a new session is active, with no end time, duration or summary, and its end and duration are consistent |
| Models.NewEventCreate | app/models.py:58-66 | omitted event metadata defaults to an empty mapping |
| Models.NewWSMessage | app/models.py:78-82 | a frame's content defaults to "", its metadata to none, its timestamp to now |
| Models.Frame.ToJson | app/models.py:90-114 | every outbound frame carries its own wire type under "type" |
| Models.FrameEncodingInjective | app/models.py:90-114 | two frames with the same JSON object are the same frame |
| Models.ParseCreateSessionRequest | app/models.py:127-128 | `user_id` defaults to "anonymous"; a given `user_id` is accepted iff it is a string, and then it is kept |
| Tools.Hits | app/llm/tools.py:91-94 | every selected position lies in the scanned prefix of the table |
| Tools.HitsExact | app/llm/tools.py:88-94 | the selected positions are strictly increasing, i.e. in table order; each is a candidate in the category; every such row in the prefix is selected |
| Tools.EntriesAt | app/llm/tools.py:91-94 | the entries are read at the selected positions, one per position |
| Tools.Matches | app/llm/tools.py:93 | with a category other than "general", every match has that category |
| Tools.Search | app/llm/tools.py:88-108 | echoes the query and category; `result_count` equals the number of results and is at least 1; the fallback entry appears exactly when nothing matches, and otherwise the matches are returned |
| Tools.SearchReturnsSelected | app/llm/tools.py:88-94 | every row whose key matches the lowered query in either direction and whose category fits is among the results |
| Tools.SearchKnowledge | app/llm/tools.py:58-108 | the loop over the table returns exactly `Search` over the fixed knowledge base |
| Tools.CalcResult.ToJson | app/llm/tools.py:44-54 | the result dictionary echoes the expression and carries `success` as whether evaluation succeeded |
| Tools.Calculate | app/llm/tools.py:42-54 | never raises: success iff the evaluator succeeds, carrying its value; otherwise the evaluator's error text; both echo the expression |
| Tools.StringArg | app/agent.py:97-103 | binding a `str` tool argument: a string is taken, an absent one takes the default, a non-string or a missing required one is a validation error |
| Tools.ExecuteTool | app/agent.py:95-105 | any unregistered name yields `{"error": "Unknown tool: " + name}` and never raises; each registered name reaches its own tool; only argument validation raises |
| Store.FinalizeUpdate | database.py:119-130 | finalising sets summary, end time, duration and status completed, and leaves every other column as it was |
| Store.ToolCallRecord | database.py:317-327 | a tool call is stored as "Called tool: " + name with metadata {tool_name, input} |
| Store.ToolResultRecord | database.py:330-340 | a tool result is stored as "Tool result from: " + name with metadata {tool_name, result} |
| Store.Stored | database.py:246-259 | the stored row keeps session, type and content; absent metadata becomes {} |
| Store.Keep | database.py:277-283 | the filter keeps only the session's rows of the requested types |
| Store.KeepMultiset | database.py:277-283 | each row is kept exactly as many times as it occurs, if it belongs to the session and type set |
| Store.Insert | database.py:279 | inserting into the ordered list adds exactly one row |
| Store.InsertChronological | database.py:279 | insertion keeps a list in ascending timestamp order |
| Store.SortByTime | database.py:279 | the timestamp order is a permutation of its input |
| Store.SortByTimeChronological | database.py:279 | the result is in ascending timestamp order |
| Store.SortByTimeStable | database.py:279 | a list already in order is returned unchanged |
| Store.KeepChronological | database.py:277-283 | filtering keeps ascending timestamp order |
| Store.TypeFilter | database.py:281-283 | no or an empty type list means every type; otherwise exactly the listed types |
| Store.SessionEventsSelected | database.py:269-286 | the query result is in timestamp order and holds only the session's rows of the requested types |
| Store.SessionEventsComplete | database.py:269-286 | every row of the session with a requested type is in the query result, as many times as in the table |
| Store.SessionEventsTableOrder | database.py:269-286 | on a table already in timestamp order, the query is a plain filter |
| Store.ConversationEvents | database.py:289-293 | the history is the session's user and AI rows in timestamp order |
| Store.Without | database.py:139-141 | after deleting the events of some sessions, none of theirs remain |
| Store.KeepWithout | database.py:133-153 | deleting sessions' events leaves every other session's history untouched |
| Store.WithoutTwice | database.py:209-227 | deleting the events of two sets of sessions one after the other equals deleting their union |
| Store.Connect | database.py:22-49 | a disabled store yields no client; a cached client is returned unchanged; otherwise a missing url or key, a url not starting with "http", or a failed creation each disable the store and yield none |
| Store.ConnectIdempotent | database.py:22-49 | a second attempt right after the first changes nothing and returns the same client (sticky disable, cached client) |
| Store.Database.GetClient | database.py:22-49 | the client state after the call and its result are `Connect` of the state before |
| Store.Database.IsEnabled | database.py:52-53 | enabled iff the flag is set and a client is obtained; a cleared flag is not re-checked |
| Store.Database.ResetClient | database.py:56-58 | the cache is cleared and the store re-enabled |
| Store.Database.CreateSession | database.py:61-84 | without a client, a row is synthesized and nothing is stored; an answering store inserts an active row under the id it assigns; otherwise it raises and stores nothing |
| Store.Database.GetSession | database.py:87-98 | without a client, none; an answering store returns the row with that id or none; otherwise it raises |
| Store.Database.UpdateSession | database.py:101-116 | the row with that id is patched and returned; a missing row or no client gives none and changes nothing |
| Store.Database.FinalizeSession | database.py:119-130 | the row is finalised as `FinalizeUpdate` states and returned; a missing row or no client gives none |
| Store.Database.DeleteSession | database.py:133-153 | removes the events, then the session; true iff both calls were answered and the row existed; never raises; a reached store is charged exactly the two calls |
| Store.Database.GetSessionMessageCount | database.py:156-171 | the number of the session's user messages; 0 with no client or when the store fails |
| Store.Database.CreateEvent | database.py:242-266 | without a client, a row is synthesized and nothing stored; an answering store appends exactly the stored row; otherwise it raises with nothing stored |
| Store.Database.GetSessionEvents | database.py:269-286 | `[]` with no client; the type-filtered, time-ordered rows of the session when the store answers; otherwise it raises |
| Store.Database.GetConversationHistory | database.py:289-293 | exactly the session's user and AI rows in timestamp order, `[]` with no client |
| Store.Database.CleanupEmptySessions | database.py:194-239 | only open sessions with no user message lose their events and their row; the count is the number of rows removed; with a store that never fails, exactly those sessions are removed; whenever the budget lasts for the listing plus one count per open session plus two deletions per empty one, the removed rows and the purged events are exactly the empty open sessions; on a failure, at most one of them has lost its events but kept its row |
| Store.Database.SweepAll | database.py:209-231 | the loop over the open sessions keeps the above as its invariant, whatever the failure point; when the budget lasts for one count per session plus two deletions per empty one, exactly the empty sessions are removed and the budget is drained by exactly those calls |
| Store.Database.Sweep | database.py:210-229 | one open session: its events and row are removed only when it has no user message; a failure stops after the events at most; it succeeds iff the budget lasts for the calls it makes (three for an empty session, one otherwise), empties iff it lasts for two, drops iff for three, and the budget is drained by exactly those calls |
| Agent.LocalTurns | app/agent.py:143-153 | one local turn per stored event, in order |
| Agent.SeedTurns | app/agent.py:143-148 | one chat-seed turn per stored event, in order |
| Agent.SeedMatchesLocal | app/agent.py:143-153 | user messages become "user" turns in both lists and every other event an assistant/model turn with the same content |
| Agent.AfterLoad | app/agent.py:132-162 | a load does nothing once loaded or while unavailable; otherwise it sets the flag on success and on failure; the history only grows, by the loaded events, and the seed changes only when events were read |
| Agent.LoadOnce | app/agent.py:133-134 | loading a second time changes nothing |
| Agent.ClassifyError | app/agent.py:255-262 | checks quota/rate, then key, then safety, in that priority order; otherwise "Error: " + exactly the first 120 characters of the text (all of it when shorter) |
| Agent.GenerateReadsAsQuota | app/agent.py:255 | the text "Failed to generate content" is classified as a quota error, because "generate" contains "rate" |
| Agent.Tokens | app/agent.py:230-236 | one token chunk per word piece, in order |
| Agent.SpacedConcat | app/agent.py:230-232 | the word pieces, with one space after each but the last, concatenate to the words joined by single spaces |
| Agent.TokensRebuildText | app/agent.py:230-236 | the tokens concatenate to the full reply, and there is one more token than spaces |
| Agent.Finish | app/agent.py:227-249 | the end of a turn is tokens followed by exactly one terminal chunk |
| Agent.ExchangeEndsOnce | app/agent.py:187-267 | every turn of a finite script ends with exactly one terminal chunk (complete or error), and nothing follows it |
| Agent.ExchangeResultsFollowCalls | app/agent.py:197-211 | every tool result follows its tool call, with the same name and with the runner's answer to the call's arguments |
| Agent.ExchangeCallsAnswered | app/agent.py:197-211 | every tool call is followed by its result or by the turn's error |
| Agent.ExchangeCompletes | app/agent.py:187-249 | a turn completes iff every tool call is answered and the final reply is non-empty text |
| Agent.CompletedTurnShape | app/agent.py:187-244 | a completed turn is the tool pairs, then the reply's tokens, then `complete` with the reply |
| Agent.RunTools | app/agent.py:187-225 | the tool loop yields the turn's chunks up to the final reply, or all of them when a tool raised |
| Agent.CallTool | app/agent.py:190-223 | one iteration yields call and result, or call and the error when the tool raises |
| Agent.Stream | app/agent.py:230-237 | the token loop yields exactly the turn's tokens |
| Agent.ConversationAgent.constructor | app/agent.py:109-130 | a new agent has an empty history, is not loaded, and has a chat exactly when the model is configured |
| Agent.ConversationAgent.LoadHistoryFromDb | app/agent.py:132-162 | the agent's new state is `AfterLoad` of the old state and the store's history; nothing is read once loaded or while unavailable; the store's budget pays for exactly the one read made, and only when it is made on a reached store |
| Agent.ConversationAgent.CopyIn | app/agent.py:142-153 | the loop appends one local turn per event and builds the chat seed |
| Agent.ConversationAgent.ProcessMessage | app/agent.py:164-267 | loads history first; unavailable: one "not initialized" error and the history untouched; otherwise the chunks are the turn's `Exchange`, and the history gains the user message, then the reply only if the turn completed; the budget pays for the history read only on the first turn of an available model on a reached store |
| Agent.ConversationAgent.Respond | app/agent.py:181-267 | the chunks are the turn's `Exchange`, and the history gains the reply only when it completes |
| Agent.ConversationAgent.GetConversationHistory | app/agent.py:269-270 | returns the history as it is |
| Agent.ConversationAgent.ClearHistory | app/agent.py:272-279 | the history is emptied, the load flag reset, and the chat restarted when the model is available |
| Agent.ReloadAfterClear | app/agent.py:272-274 | after a clear, the next load rebuilds the history from the store |
| Sessions.Elapsed | app/services/session.py:47-49 | the duration exists iff a start time is set, and then start + duration = end |
| Sessions.EndedRecord | app/services/session.py:52-56 | the "Session ended" system event carries `duration_seconds`: a number when known, null otherwise |
| Sessions.EndedRowIsClosed | app/services/session.py:58-62 | ending writes end time, duration and status completed, and nothing else |
| Sessions.ResumeKeepsOldDuration | app/services/session.py:92-95 | resuming an ended session makes it active and clears its end time, but keeps its old duration |
| Sessions.IsoText | app/services/session.py:82 | the text handed to the ISO parser contains no "Z" |
| Sessions.ResumedStart | app/services/session.py:79-90 | the stored start time is parsed when it is a non-empty string that parses; otherwise now |
| Sessions.ResumedStartWithOffset | app/services/session.py:79-86 | a stored start without "Z" is parsed as it is |
| Sessions.SessionManager.constructor | app/services/session.py:17-21 | a new manager is inactive and has no start time |
| Sessions.SessionManager.StartSession | app/services/session.py:23-38 | the start time is now, set first, and no event is written; without a client the synthesized active row is returned and nothing is stored; an answering store stores `StartedRow` (active, started now, for the manager's user) under the id it assigns, and the manager becomes active under that id; a failing store raises, stores nothing, and leaves the id and activity as they were |
| Sessions.SessionManager.EndSession | app/services/session.py:40-69 | an inactive manager returns none and touches nothing; otherwise the manager ends inactive whatever happens; without a client nothing is written and none is returned; a store that fails at once raises with nothing written; one that answers one call stores exactly the "Session ended" event with the elapsed duration and then raises; one that answers both also closes the row (end time, duration, completed) and returns it, or returns none when the row is missing |
| Sessions.SessionManager.ResumeSession | app/services/session.py:71-102 | a failing lookup raises the store error; a missing session (or no client) raises "Session not found" and leaves the manager as it was; a found session makes the manager active with the start time from `ResumedStart`, then the update marks the row active with no end time and the stored row is returned, or the update fails and raises the store error with the table unchanged; the budget pays for exactly the calls made: one lookup, and the update only for a found row |
| Sessions.SessionManager.LogUserInput | app/services/session.py:104-105 | writes a user message under the manager's current id, as `create_event` does |
| Sessions.SessionManager.LogAiOutput | app/services/session.py:107-112 | writes an AI response under the manager's current id |
| Sessions.SessionManager.LogToolExecution | app/services/session.py:114-119 | writes a tool call under the manager's current id |
| Sessions.SessionManager.LogToolOutput | app/services/session.py:121-126 | writes a tool result under the manager's current id |
| Sessions.SessionManager.LogErrorEvent | app/services/session.py:128-133 | writes an error event under the manager's current id |
| Sessions.SessionManager.GetSessionInfo | app/services/session.py:135-136 | exactly `get_session` of the current id: none without a client, the stored row or none when the store answers, the store error when it fails |
| Summary.Trimmed | app/services/summary.py:66-68 | the stripped name neither starts nor ends with a quote |
| Summary.Shorten | app/services/summary.py:70-71 | a name over 50 characters becomes its first 47 characters + "..."; a shorter one is kept |
| Summary.ChatName | app/services/summary.py:66-71 | a generated name has at most 50 characters |
| Summary.ChatNameUnquoted | app/services/summary.py:66-71 | a generated name does not start with a quote, and does not end with one unless it was shortened |
| Summary.FallbackName | app/services/summary.py:78 | the fallback is the summary when at most 30 characters, else its first 30 + "..." |
| Summary.GenerateChatName | app/services/summary.py:50-79 | the namer's reply is post-processed; when the namer raises, the fallback is used |
| Summary.Lines | app/services/summary.py:91-94 | one transcript line per event, in order |
| Summary.Transcript | app/services/summary.py:91-96 | the loop builds the lines joined by newlines |
| Summary.SplitJoin | app/services/summary.py:96 | joining pieces free of the separator and splitting again gives the pieces back |
| Summary.TranscriptLines | app/services/summary.py:91-96 | for single-line contents, the transcript splits back into exactly its lines |
| Summary.SummaryText | app/services/summary.py:82-117 | a failing history read gives "Summary generation failed: " + the error; an empty history gives the fixed no-conversation text |
| Summary.GenerateSessionSummary | app/services/summary.py:82-117 | the summary is `SummaryText` of the stored history, and no table changes |
| Summary.SummariseAndConclude | app/services/summary.py:139-162 | on a connected store: the summary is `SummaryText` of the stored history and the rest is `Conclude`; it finishes iff the budget lasts for the history read, the naming call when the summary is non-empty, and the finalising call (three or two calls); a failure is the store error; the session table is `Settled`: fully concluded for a finished report, only renamed when the naming call alone was answered, untouched otherwise |
| Summary.EndReport.ToJson | app/services/summary.py:133-170 | the report carries the session id and status; the deleted report gives the reason "empty_session" and no summary; the completed one gives the duration |
| Summary.ProcessSessionEnd | app/services/summary.py:120-170 | with no user message, or no store, the session goes down the deletion branch and nothing is summarised; with no store the report is delete_failed and nothing is deleted; the report says deleted iff the store is reached, the budget lasts for the count and both deletions, and the row existed, and then exactly that row and its events are gone; otherwise the report's summary is `SummaryText` of the stored history, its name is the generated name exactly when the summary is non-empty, and the row is finalised with the summary (or "No summary available"), that name, and the duration fixed before any call; it finishes iff the store is reached, the session has a user message and the budget lasts for the count, the history read, the naming call for a non-empty summary and the finalising call; any failure becomes an error report; a report that does not drop the session leaves the events as they were and the session table `Settled` |
| Summary.DropEmpty | app/services/summary.py:129-137 | the empty-session branch: the report is a drop; it says deleted iff the store is reached, the budget lasts for both deletions and the row existed; the row is gone iff the store is reached and the budget lasts for two calls, the events iff it lasts for one, and nothing else changes |
| Summary.DropCounted | app/services/summary.py:125-137 | after a count of zero: the report is a drop of this session; it says deleted iff the store is reached, the budget lasted for the count and both deletions, and the row existed; the row is gone iff the budget lasted for three calls, the events iff for two |
| Summary.Conclude | app/services/summary.py:139-162 | naming happens only for a non-empty summary, then finalising; it finishes exactly when there is no client or the store answers the one or two calls it needs; a finished report echoes summary and duration, its name is the generated one iff the summary is non-empty, and the row holds them; the whole session table is `Settled`: both updates applied when finished, only the name when just the naming call was answered, otherwise unchanged |
| Summary.Finish | app/services/summary.py:146-170 | the finalising call: it finishes iff there is no client or the store answers; the row is finalised with the summary (or "No summary available"), the end time and the duration exactly when the store answers |
| Summary.ConcludedCloses | app/services/summary.py:141-151 | naming then finalising a session leaves its row closed as the finished report says: completed, with the report's summary, end time, duration and name |
| Summary.Scheduler.SchedulePostProcessing | app/services/summary.py:173-178 | one post-processing run is queued for the session and its start time |
| Server.Socket.SendWsMessage | main.py:259-267 | a frame is delivered only when both states read CONNECTED and the peer is there; otherwise it is dropped silently |
| Server.Socket.Close | main.py:253-254 | closing disconnects both sides |
| Server.ClassifyCases | main.py:169-178 | undecodable iff the text was not JSON; ping iff the type is "ping"; blank iff the content is absent or only whitespace; content is the stripped non-blank text |
| Server.Immediate | main.py:172-178 | a ping is answered by exactly one pong, a blank frame by nothing, an undecodable frame by "Invalid message format", and other failures by their error text |
| Server.FrameOf | main.py:187-229 | each chunk kind maps to its one frame kind; an error chunk's text is sent as "message"; a chunk is never answered with a pong |
| Server.LogOf | main.py:187-229 | tokens and an empty `complete` are not logged; every other chunk is logged under the session id with its own record |
| Server.AccumulatedTokens | main.py:187-192 | the accumulated text of token chunks is the concatenation of their texts |
| Server.TokensNotLogged | main.py:187-192 | tokens leave no row in the log |
| Server.CompletedTurnText | main.py:182-192 | for a turn that completes, `full_response` is exactly the reply |
| Server.CompletedTurnLog | main.py:184-229 | for a turn that completes, the log holds two rows per tool request, then the reply |
| Server.RelayChunk | main.py:184-229 | one chunk: its frame is sent first, then its log write is made; a refused write raises after the frame was sent |
| Server.Relay | main.py:182-229 | the frames of the relayed chunks are sent in order; the log holds the rows of every chunk written so far, in order; a raising write ends the relay; the budget is drained by exactly the writes attempted; a write raises iff the budget does not last for all the chunks' rows, and then the budget was exactly the rows already written |
| Server.RelayStep | main.py:184-229 | one pass of the relay loop: either the relay goes on one chunk further with the frames, text, rows and budget drain of the longer prefix, or that chunk's write raised, and then the budget the relay started with was exactly the rows already written |
| Server.LoggedWithin | main.py:184-229 | the rows logged for a prefix of the chunks are no more than those for all of them |
| Server.Engine | main.py:184 | an unavailable model yields a single "not initialized" error; otherwise the turn's chunks |
| Server.StartTurn | main.py:184 | the chunks are what the engine yields for the message; the budget pays for the history read of a first turn only |
| Server.ReportFault | main.py:238-244 | an exception raised during a frame is sent as an error frame only while the client side reads CONNECTED |
| Server.Deliver | main.py:184-244 | the relayed chunks' frames are sent, then the error frame of a raising write; the log holds exactly the rows written before it; a fault is always the store error; a fault occurs iff the budget does not last for all the chunks' rows, and then the budget was exactly the rows written; the budget left is drained by the writes attempted |
| Server.Converse | main.py:180-244 | the frames sent are those of the relayed chunks, then the fault's; the user message is logged before the engine runs; if that write raises, the engine does not run and only the error is reported; without a client nothing is logged and every chunk is relayed; otherwise the log is the user row followed by the written chunks' rows; a fault occurs iff the budget does not last for the user row, the history read of a first turn and all the chunks' rows, and a mid-relay fault means the budget was exactly the calls made before it |
| Server.Reply | main.py:182-244 | once the user's message is logged: the turn's chunks are the engine's, the rows are the user row then the written chunks' rows, and the fault is tied to the budget left after the user row and the history read |
| Server.RunTurn | main.py:184-244 | the engine runs, then its chunks are relayed: frames of the relayed chunks then the fault's; rows of the written chunks; a fault occurs iff the budget left after the history read does not last for all the chunks' rows |
| Server.HandleFrame | main.py:168-244 | non-content frames touch neither store nor agent and send only their `Immediate` answer; a content frame sends the relayed chunks' frames and then the fault's; its chunks are the engine's unless the user-row write raised; on a connected store the log is the user row followed by the written chunks' rows; a content frame faults iff the budget does not last for all the calls its turn needs, as `Converse` states; with a store that never fails (or no client) the frames are exactly `FramesFor` the frame and the rows `RowsFor` it |
| Server.Answer | main.py:172-237 | a frame that is not content is answered with exactly its `Immediate` frames, when they can be delivered |
| Server.HandleContent | main.py:176-244 | a content frame's stripped text is conversed: the frames are the relayed chunks' then the fault's; on a connected store the log is the user row then the written chunks' rows, and a store failing at once runs no engine; without a client nothing is logged; the fault is tied to the budget as in `Converse`; with a store that never fails (or no client) the frames are exactly `FramesFor` the frame and the rows `RowsFor` it |
| Server.ReceiveOne | main.py:168-244 | one received frame, seen from the loop: frames sent and rows stored as `HandleFrame` states, with the socket's delivery state unchanged; for a content frame, on any store, the frames are the relayed chunks' then the fault's, the rows are the user row then the written chunks' rows, and the fault and the budget left are tied to the budget as in `Converse` |
| Server.ReceiveStep | main.py:167-244 | one pass of the loop carries its bookkeeping one frame further: what was sent is the replies so far, what was stored is the rows so far |
| Server.Advance | main.py:167-244 | the per-frame replies and rows of a prefix of the inbox, extended by one frame's, are those of the longer prefix |
| Server.AnsweredEach | main.py:172-178 | every non-content frame of the inbox got exactly its `Immediate` reply and stored nothing |
| Server.Teardown | main.py:250-254 | post-processing is always scheduled; the socket is closed only if its client side still reads CONNECTED |
| Server.ReceiveLoop | main.py:167-244 | every received frame is handled, in order: the frames sent are the per-frame replies concatenated (when the socket delivers), the events are the per-frame rows concatenated; every non-content frame is answered by its `Immediate` frames and stores nothing; with a store that never fails (or no client) the replies are `RepliesFor` the inbox and the rows `WritesFor` it, under the manager's id |
| Server.ResumeOrStart | main.py:158-163 | the stored session is resumed or a new one started; on a reached store this succeeds iff the budget lasts for the two calls of a resume or the one of a start, and the budget is drained by them; on success the manager is active, started at the resumed start or now, and logs under the path's id for a resumed session and the store-assigned id for a started one; the session table becomes `Opened` (row reopened, or the started row added) exactly when it succeeds on a reached store |
| Server.Serve | main.py:165-244 | a new agent for the session, then the receive loop over the whole inbox, as `ReceiveLoop` states |
| Server.Attend | main.py:154-244 | on a connected socket: setup, then either nothing (setup raised) or every frame handled; on a reached store every frame is handled iff the budget lasts for the setup calls, and none otherwise; a store that never fails (or no client) handles every frame; what is sent and stored is as `ReceiveLoop` states, logged under the id `ResumeOrStart` leaves; the session table is `Opened` exactly when setup succeeded |
| Server.WebsocketSession | main.py:136-256 | the session id is the path's, or a generated one; `stored` holds iff the lookup was answered and found the row; a failing lookup before the `try` ends the handler with nothing scheduled; otherwise post-processing is scheduled for that id and the socket is closed if connected, whatever happened; on a connected socket and a reached store every frame is handled iff the budget lasts for the lookup and the setup calls, and none otherwise; the session table is then `Opened`, else unchanged; with a store that never fails (or no client) frames sent and events stored are `RepliesFor` and `WritesFor` the inbox, logged under the path's id for a resumed session and under the store-assigned id for a started one |
| Server.Engage | main.py:153-254 | the `try` and `finally` after the lookup: on a connected socket, setup and the receive loop as `Attend` states, tied to the budget before the lookup; post-processing is scheduled and the socket closed in every case |

## Left out

- The Gemini and LangChain calls (configure, start_chat, send_message, ainvoke) and the tool schema objects: the backend of a turn is a finite script of replies, and the summariser and namer are function parameters.
- The Supabase query builder and HTTP I/O: the store is two in-memory tables. Row ids and timestamps the store would assign are parameters. A failing remote call is modelled only as "the store stops answering" (the countdown budget), not by its exception's text.
- asyncio: `to_thread`, the token and accept delays, `create_task`. The scheduler records the runs it would start. Concurrency between a scheduled post-processing run and later frames is not modelled.
- `get_weather` and `get_current_time` (random values, the wall clock, float rounding) and the calculator's `eval`: they are uninterpreted members of `Tools.Toolkit`.
- `datetime.utcnow`, `isoformat` and `fromisoformat`: times are whole seconds, and the parser and formatter are parameters.
- `Strings.Lower` lowers ASCII letters only; Python's `lower()` covers all of Unicode.
- JSON numbers are integers; floats do not occur in the model.
- `json.loads`: a received frame is already decoded, or `None` when it is not JSON. `send_json` serialisation is left out.
- The FastAPI HTTP routes, `lifespan`, static files, `get_first_user_message` (used only by a route), app/config.py loading, and all logging.
- `get_tool_descriptions` and the prompts: text constants handed to the LLM only.
- Agent.ConversationAgent.ProcessMessage: stated for any tool runner `run`; the source's runner is `execute_tool`, which is `Agent.Run(kit)`, whose behaviour `Tools.ExecuteTool` states.
- Server.Converse: the engine's turn runs to completion before its chunks are relayed. In the source the generator is lazy. So when a log write raises mid-relay, the tools after that point never run, and the reply is not added to the agent's history. The model's agent history is the completed turn's.
- Server.RelayChunk: the send-before-log order shows only when a log write fails after its frame was sent. Interleaving with the peer is not modelled.
- Server.ReceiveLoop: the peer closing the socket is the end of the inbox. State changes made by the peer during the loop (beyond `peerGone`, which drops sends) are not modelled.
- Server.WebsocketSession: the handler's `WebSocketDisconnect` re-raise and its outer handlers are not modelled separately; they only reach the `finally` teardown, which is modelled.
- Sessions.SessionManager.EndSession: after a resume whose stored start time carries an offset ("Z" or "+00:00"), `fromisoformat` gives an offset-aware time, and `end_time - self.start_time` then raises a `TypeError` against the naive `utcnow()`. Times here are plain seconds, so this raise is not modelled; the model computes the duration instead.
- Tools.StringArg: a validation error is modelled by the first line of its text only, "1 validation error for " + the tool. The rest of pydantic's message (the field, the error kind, the input value, the link to the docs) is not modelled. Nor is the count when two arguments of `search_knowledge` are both bad: pydantic then reports "2 validation errors", and the model reports the first.
- Server.Serve: for a store that fails partway, the per-frame replies and rows are stated frame by frame by `Server.ReceiveOne` (relayed chunks, fault, budget drain), not carried as one closed form over the whole inbox; the loop states them in closed form (`RepliesFor`, `WritesFor`) only for a store that never fails or no client.
- Server.ReceiveLoop: as for `Server.Serve`, the content shape of each frame on a partly failing store is given per frame by `Server.ReceiveOne`; the loop carries the frames sent and rows stored as the concatenation of those per-frame results.
- Summary.ProcessSessionEnd: `get_session_message_count` (database.py:169-171) turns a failing count into 0, and `delete_session` (app/services/summary.py:131) then runs. With a transient failure the count fails but the deletion can succeed, removing a session that does have user messages. The countdown budget never recovers once it is spent, so in the model a failed count is always followed by a failed deletion, and this data loss is not shown.
