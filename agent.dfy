/**
 * The conversation engine (app/agent.py): the per-session local history, the
 * history seeded into the language-model chat, and one turn of the tool loop
 * with the stream of chunks it yields.
 *
 * The language model is replaced by a `Backend`: the function calls it asks
 * for, in order, and how its last reply ends (text, no content, or an
 * exception with its text).
 */
module Agent {
  import opened Wrappers
  import opened Models
  import Strings
  import Tools
  import Store

  // ---------------------------------------------------------------- histories

  /** The role of a local history entry. */
  datatype Speaker = User | Assistant {
    function Wire(): string {
      match this
      case User => "user"
      case Assistant => "assistant"
    }
  }

  /** An entry of `conversation_history`. */
  datatype Turn = Turn(role: Speaker, content: string)

  /** The role of an entry of the history a chat is started with. */
  datatype ChatRole = UserRole | ModelRole {
    function Wire(): string {
      match this
      case UserRole => "user"
      case ModelRole => "model"
    }
  }

  /** An entry of the history a chat is started with. */
  datatype ChatTurn = ChatTurn(role: ChatRole, parts: seq<string>)

  /** The local entry for a stored event: user messages are the user's, everything else the assistant's. */
  function LocalTurn(e: Store.EventRow): Turn {
    Turn(if e.eventType == UserMessage then User else Assistant, e.content)
  }

  /** The chat entry for a stored event: user messages are the user's, everything else the model's. */
  function SeedTurn(e: Store.EventRow): ChatTurn {
    ChatTurn(if e.eventType == UserMessage then UserRole else ModelRole, [e.content])
  }

  function LocalTurns(events: seq<Store.EventRow>): (r: seq<Turn>)
    ensures |r| == |events| && forall i :: 0 <= i < |r| ==> r[i] == LocalTurn(events[i])
  {
    seq(|events|, i requires 0 <= i < |events| => LocalTurn(events[i]))
  }

  function SeedTurns(events: seq<Store.EventRow>): (r: seq<ChatTurn>)
    ensures |r| == |events| && forall i :: 0 <= i < |r| ==> r[i] == SeedTurn(events[i])
  {
    seq(|events|, i requires 0 <= i < |events| => SeedTurn(events[i]))
  }

  /** Both histories of a longer prefix extend those of the shorter one by the entry for the next event. */
  lemma TurnsGrow(events: seq<Store.EventRow>, i: nat)
    requires i < |events|
    ensures SeedTurns(events[..i + 1]) == SeedTurns(events[..i]) + [SeedTurn(events[i])]
    ensures LocalTurns(events[..i + 1]) == LocalTurns(events[..i]) + [LocalTurn(events[i])]
  {
    assert events[..i + 1] == events[..i] + [events[i]];
  }

  /**
   * The local history and the chat seed built from the same events agree entry
   * by entry: same speaker (user for user messages only) and the same text.
   */
  lemma SeedMatchesLocal(events: seq<Store.EventRow>)
    ensures var local, seed := LocalTurns(events), SeedTurns(events);
      && |local| == |seed| == |events|
      && forall i :: 0 <= i < |events| ==>
           && (local[i].role == User <==> events[i].eventType == UserMessage)
           && (seed[i].role == UserRole <==> local[i].role == User)
           && seed[i].parts == [local[i].content] && local[i].content == events[i].content
  {
  }

  /** The agent's loading state: local history, whether it was loaded, and the chat seed. */
  datatype LoadState = LoadState(history: seq<Turn>, loaded: bool, chat: Option<seq<ChatTurn>>)

  /**
   * What `load_history_from_db` leaves, given what the store answers: nothing
   * when already loaded or the model is unavailable; otherwise the flag is set,
   * and a non-empty answer is appended locally and becomes the chat seed. A
   * failing store is logged and ignored.
   */
  function AfterLoad(s: LoadState, available: bool, outcome: Result<seq<Store.EventRow>, string>): (r: LoadState)
    ensures s.loaded || !available ==> r == s
    ensures !s.loaded && available ==> r.loaded
    ensures |s.history| <= |r.history| && r.history[..|s.history|] == s.history
    ensures r.chat != s.chat ==> r.chat.Some? && |r.history| - |s.history| == |r.chat.value|
  {
    if s.loaded || !available then s
    else if outcome.Success? && outcome.value != [] then
      LoadState(s.history + LocalTurns(outcome.value), true, Some(SeedTurns(outcome.value)))
    else LoadState(s.history, true, s.chat)
  }

  /** Loading twice is loading once: the second load changes nothing, whatever the store answers. */
  lemma LoadOnce(s: LoadState, available: bool, first: Result<seq<Store.EventRow>, string>, second: Result<seq<Store.EventRow>, string>)
    ensures AfterLoad(AfterLoad(s, available, first), available, second) == AfterLoad(s, available, first)
  {
  }

  // ---------------------------------------------------------------- error texts

  /** The user-facing errors a turn reports, each with its exact text. */
  datatype UserError = NotInitialized | EmptyResponse | QuotaExceeded | InvalidKey | SafetyBlocked | Raw(excerpt: string) {
    function Message(): string {
      match this
      case NotInitialized => "Gemini not initialized. Check your GEMINI_API_KEY in .env"
      case EmptyResponse => "AI returned empty response. Your API quota may be exhausted."
      case QuotaExceeded => "API quota exceeded. Get a new key from https://aistudio.google.com/apikey"
      case InvalidKey => "Invalid API key. Update GEMINI_API_KEY in your .env file"
      case SafetyBlocked => "Response blocked by safety filters. Try a different message."
      case Raw(excerpt) => "Error: " + excerpt
    }
  }

  predicate QuotaLike(e: string) {
    || Strings.Contains(e, "429")
    || Strings.Contains(Strings.Lower(e), "quota")
    || Strings.Contains(Strings.Lower(e), "rate")
    || Strings.Contains(Strings.Lower(e), "exhausted")
  }

  predicate KeyLike(e: string) {
    || Strings.Contains(Strings.Lower(e), "api_key")
    || Strings.Contains(Strings.Lower(e), "invalid")
    || Strings.Contains(e, "API key")
  }

  predicate SafetyLike(e: string) {
    Strings.Contains(Strings.Lower(e), "blocked") || Strings.Contains(Strings.Lower(e), "safety")
  }

  /**
   * The kind of error reported for an exception raised during a turn: quota,
   * then key, then safety problems are recognised in that order; anything
   * else is shown as the raw text cut to its first 120 characters.
   */
  function ClassifyError(e: string): (r: UserError)
    ensures !r.NotInitialized? && !r.EmptyResponse?
    ensures r == QuotaExceeded <==> QuotaLike(e)
    ensures r == InvalidKey <==> !QuotaLike(e) && KeyLike(e)
    ensures r == SafetyBlocked <==> !QuotaLike(e) && !KeyLike(e) && SafetyLike(e)
    ensures r.Raw? ==> r.excerpt == e[..if |e| <= 120 then |e| else 120]
  {
    if QuotaLike(e) then QuotaExceeded
    else if KeyLike(e) then InvalidKey
    else if SafetyLike(e) then SafetyBlocked
    else Raw(Strings.Take(e, 120))
  }

  /**
   * The quota test matches "rate" anywhere, case-insensitively, so an error
   * about generating content is reported as an exhausted quota.
   */
  lemma GenerateReadsAsQuota()
    ensures ClassifyError("Failed to generate content") == QuotaExceeded
  {
    var e := "Failed to generate content";
    var lower := Strings.Lower(e);
    assert lower[14] == 'r' && lower[15] == 'a' && lower[16] == 't' && lower[17] == 'e';
    assert lower[14..18] == "rate";
    Strings.ContainsAt(lower, "rate", 14);
  }

  // ---------------------------------------------------------------- one turn

  /** A function call the model asks for. */
  datatype ToolRequest = ToolRequest(name: string, args: Dict)

  /** How the model's last reply of a turn ends. */
  datatype FinalReply = Text(text: string) | NoContent | Raises(error: string)

  /** The model's side of one turn: the calls it asks for, in order, then its last reply. */
  datatype Backend = Backend(requests: seq<ToolRequest>, final: FinalReply)

  /** The dictionaries `process_message` yields. */
  datatype Chunk =
    | ToolCallChunk(toolName: string, toolInput: Dict)
    | ToolResultChunk(toolName: string, result: Json)
    | TokenChunk(content: string)
    | CompleteChunk(content: string)
    | ErrorChunk(error: UserError)
  {
    /** A chunk after which the turn yields nothing more. */
    predicate Terminal() {
      CompleteChunk? || ErrorChunk?
    }
  }

  /** The words of `words` with a space after every word but the last. */
  function Spaced(words: seq<string>): (r: seq<string>)
    ensures |r| == |words|
  {
    seq(|words|, i requires 0 <= i < |words| => words[i] + (if i < |words| - 1 then " " else ""))
  }

  /** The token texts streamed for a reply: its space-separated words, spaces kept. */
  function TokenTexts(text: string): seq<string> {
    Spaced(Strings.Split(text, ' '))
  }

  function Tokens(text: string): (r: seq<Chunk>)
    ensures |r| == |TokenTexts(text)|
    ensures forall i :: 0 <= i < |r| ==> r[i] == TokenChunk(TokenTexts(text)[i])
  {
    seq(|TokenTexts(text)|, i requires 0 <= i < |TokenTexts(text)| => TokenChunk(TokenTexts(text)[i]))
  }

  lemma {:induction false} SpacedConcat(words: seq<string>)
    requires |words| >= 1
    ensures Strings.Concat(Spaced(words)) == Strings.Join(words, " ")
  {
    if |words| == 1 {
      assert Spaced(words)[0] == words[0] + "" == words[0];
      assert Spaced(words) == [words[0]];
      assert Strings.Concat([words[0]]) == words[0] + Strings.Concat([]);
    } else {
      SpacedConcat(words[1..]);
      assert Spaced(words) == [words[0] + " "] + Spaced(words[1..]);
    }
  }

  /** The streamed tokens put back together are the reply, one token per space plus one. */
  lemma TokensRebuildText(text: string)
    ensures Strings.Concat(TokenTexts(text)) == text
    ensures |TokenTexts(text)| == Strings.Count(text, ' ') + 1
  {
    SpacedConcat(Strings.Split(text, ' '));
    Strings.JoinSplit(text, ' ');
    Strings.SplitLength(text, ' ');
  }

  /** What the turn yields once the tool loop is over. */
  function Finish(final: FinalReply): (r: seq<Chunk>)
    ensures r != [] && r[|r| - 1].Terminal()
    ensures forall i :: 0 <= i < |r| - 1 ==> r[i].TokenChunk?
  {
    match final
    case Text(t) => if t != "" then Tokens(t) + [CompleteChunk(t)] else [ErrorChunk(EmptyResponse)]
    case NoContent => [ErrorChunk(EmptyResponse)]
    case Raises(e) => [ErrorChunk(ClassifyError(e))]
  }

  /** How the tools answer a request: the result, or the text of what the tool raises. */
  type Runner = ToolRequest -> Result<Json, string>

  /** The registered tools with the given outside behaviour, as `execute_tool` runs them. */
  function Run(kit: Tools.Toolkit): Runner {
    (q: ToolRequest) => Tools.ToolSpec(q.name, q.args, kit)
  }

  /**
   * The chunks of one turn of a model that is available: a call and its result
   * for each request, then the reply's tokens and the complete reply, or an
   * error. A tool whose arguments are rejected ends the turn with an error
   * right after its call.
   */
  function Exchange(requests: seq<ToolRequest>, final: FinalReply, run: Runner): (r: seq<Chunk>)
    ensures r != []
  {
    if requests == [] then Finish(final)
    else
      var q := requests[0];
      match run(q)
      case Failure(e) => [ToolCallChunk(q.name, q.args), ErrorChunk(ClassifyError(e))]
      case Success(j) => [ToolCallChunk(q.name, q.args), ToolResultChunk(q.name, j)] + Exchange(requests[1..], final, run)
  }

  /** A turn yields exactly one terminal chunk, its last. */
  lemma {:induction false} ExchangeEndsOnce(requests: seq<ToolRequest>, final: FinalReply, run: Runner)
    ensures var r := Exchange(requests, final, run);
      && r[|r| - 1].Terminal()
      && forall i :: 0 <= i < |r| - 1 ==> !r[i].Terminal()
  {
    if requests != [] {
      var q := requests[0];
      match run(q)
      case Failure(e) =>
      case Success(j) =>
        var rest := Exchange(requests[1..], final, run);
        var r := Exchange(requests, final, run);
        ExchangeEndsOnce(requests[1..], final, run);
        assert r == [ToolCallChunk(q.name, q.args), ToolResultChunk(q.name, j)] + rest;
        forall i | 2 <= i < |r| - 1
          ensures !r[i].Terminal()
        {
          assert r[i] == rest[i - 2];
        }
    }
  }

  /** Each tool result directly follows the call it answers, with that call's name and what the tool returns for it. */
  predicate ResultsFollowCalls(r: seq<Chunk>, run: Runner) {
    forall i :: 0 <= i < |r| && r[i].ToolResultChunk? ==>
      && i > 0 && r[i - 1].ToolCallChunk? && r[i - 1].toolName == r[i].toolName
      && run(ToolRequest(r[i - 1].toolName, r[i - 1].toolInput)) == Success(r[i].result)
  }

  /** Each tool call is answered by its result or by the error that ends the turn. */
  predicate CallsAnswered(r: seq<Chunk>) {
    forall i :: 0 <= i < |r| && r[i].ToolCallChunk? ==>
      && i + 1 < |r|
      && (r[i + 1].ErrorChunk? || (r[i + 1].ToolResultChunk? && r[i + 1].toolName == r[i].toolName))
  }

  /** A call and its accepted result in front of a well-paired stream keep it well paired. */
  lemma ResultsFollowCallsPrepend(q: ToolRequest, j: Json, rest: seq<Chunk>, run: Runner)
    requires run(q) == Success(j) && ResultsFollowCalls(rest, run)
    requires rest != [] ==> !rest[0].ToolResultChunk?
    ensures ResultsFollowCalls([ToolCallChunk(q.name, q.args), ToolResultChunk(q.name, j)] + rest, run)
  {
    var r := [ToolCallChunk(q.name, q.args), ToolResultChunk(q.name, j)] + rest;
    assert q == ToolRequest(q.name, q.args);
    forall i | 3 <= i < |r| && r[i].ToolResultChunk?
      ensures r[i - 1].ToolCallChunk? && r[i - 1].toolName == r[i].toolName
      ensures run(ToolRequest(r[i - 1].toolName, r[i - 1].toolInput)) == Success(r[i].result)
    {
      assert r[i] == rest[i - 2] && r[i - 1] == rest[i - 3];
    }
  }

  /** In a turn, every tool result follows its call and carries what the tool returned. */
  lemma {:induction false} ExchangeResultsFollowCalls(requests: seq<ToolRequest>, final: FinalReply, run: Runner)
    ensures ResultsFollowCalls(Exchange(requests, final, run), run)
  {
    if requests != [] {
      var q := requests[0];
      match run(q)
      case Failure(e) =>
      case Success(j) =>
        var rest := Exchange(requests[1..], final, run);
        ExchangeResultsFollowCalls(requests[1..], final, run);
        ResultsFollowCallsPrepend(q, j, rest, run);
    }
  }

  /** A call and its result in front of a stream whose calls are answered keep them answered. */
  lemma CallsAnsweredPrepend(q: ToolRequest, j: Json, rest: seq<Chunk>)
    requires CallsAnswered(rest)
    ensures CallsAnswered([ToolCallChunk(q.name, q.args), ToolResultChunk(q.name, j)] + rest)
  {
    var r := [ToolCallChunk(q.name, q.args), ToolResultChunk(q.name, j)] + rest;
    forall i | 2 <= i < |r| && r[i].ToolCallChunk?
      ensures i + 1 < |r|
      ensures r[i + 1].ErrorChunk? || (r[i + 1].ToolResultChunk? && r[i + 1].toolName == r[i].toolName)
    {
      assert r[i] == rest[i - 2];
      assert i - 2 + 1 < |rest| && r[i + 1] == rest[i - 1];
    }
  }

  /** In a turn, every tool call is followed by its result or by the error that ends the turn. */
  lemma {:induction false} ExchangeCallsAnswered(requests: seq<ToolRequest>, final: FinalReply, run: Runner)
    ensures CallsAnswered(Exchange(requests, final, run))
  {
    if requests != [] {
      var q := requests[0];
      match run(q)
      case Failure(e) =>
      case Success(j) =>
        ExchangeCallsAnswered(requests[1..], final, run);
        CallsAnsweredPrepend(q, j, Exchange(requests[1..], final, run));
    }
  }

  /** The reply a chunk stream completes with, if it completes. */
  function Completion(chunks: seq<Chunk>): Option<string> {
    if chunks != [] && chunks[|chunks| - 1].CompleteChunk? then Some(chunks[|chunks| - 1].content) else None
  }

  /** Every requested call has arguments its tool accepts. */
  predicate AllAccepted(requests: seq<ToolRequest>, run: Runner) {
    forall k :: 0 <= k < |requests| ==> run(requests[k]).Success?
  }

  lemma AllAcceptedCons(requests: seq<ToolRequest>, run: Runner)
    requires requests != []
    ensures AllAccepted(requests, run)
            <==> run(requests[0]).Success? && AllAccepted(requests[1..], run)
  {
    if run(requests[0]).Success? && AllAccepted(requests[1..], run) {
      forall k | 1 <= k < |requests| ensures run(requests[k]).Success? {
        assert requests[k] == requests[1..][k - 1];
      }
    }
  }

  /** A turn completes exactly when every tool call is accepted and the reply is non-empty text. */
  lemma {:induction false} ExchangeCompletes(requests: seq<ToolRequest>, final: FinalReply, run: Runner)
    ensures Completion(Exchange(requests, final, run)).Some?
            <==> final.Text? && final.text != "" && AllAccepted(requests, run)
  {
    if requests != [] {
      AllAcceptedCons(requests, run);
      var q := requests[0];
      match run(q)
      case Failure(e) =>
      case Success(j) =>
        ExchangeCompletes(requests[1..], final, run);
        var rest := Exchange(requests[1..], final, run);
        assert Exchange(requests, final, run) == [ToolCallChunk(q.name, q.args), ToolResultChunk(q.name, j)] + rest;
    }
  }

  /**
   * A completed turn ends with the reply's tokens and then the reply itself,
   * after one call and one result for each request.
   */
  lemma {:induction false} CompletedTurnShape(requests: seq<ToolRequest>, final: FinalReply, run: Runner)
    requires Completion(Exchange(requests, final, run)).Some?
    ensures var r := Exchange(requests, final, run);
      && final.Text? && Completion(r) == Some(final.text)
      && |r| == 2 * |requests| + |Tokens(final.text)| + 1
      && r[2 * |requests|..] == Tokens(final.text) + [CompleteChunk(final.text)]
  {
    ExchangeCompletes(requests, final, run);
    if requests != [] {
      var q := requests[0];
      var j := run(q).value;
      var rest := Exchange(requests[1..], final, run);
      var r := Exchange(requests, final, run);
      assert r == [ToolCallChunk(q.name, q.args), ToolResultChunk(q.name, j)] + rest;
      CompletedTurnShape(requests[1..], final, run);
      assert r[2 * |requests|..] == rest[2 * (|requests| - 1)..];
    }
  }

  /** The local entry for the assistant's reply, when the turn completed. */
  function Answer(chunks: seq<Chunk>): seq<Turn> {
    if Completion(chunks).Some? then [Turn(Assistant, Completion(chunks).value)] else []
  }

  /**
   * The function-call loop of `process_message`: each requested call is
   * announced and run; a rejected call ends the turn with its error
   * (`stopped`), otherwise the reply is still to come.
   */
  method RunTools(requests: seq<ToolRequest>, final: FinalReply, run: Runner)
    returns (chunks: seq<Chunk>, stopped: bool)
    ensures stopped ==> chunks == Exchange(requests, final, run) && chunks[|chunks| - 1].ErrorChunk?
    ensures !stopped ==> Exchange(requests, final, run) == chunks + Finish(final)
  {
    chunks := [];
    stopped := false;
    var i := 0;
    while i < |requests|
      invariant 0 <= i <= |requests|
      invariant Exchange(requests, final, run) == chunks + Exchange(requests[i..], final, run)
    {
      var added;
      added, stopped := CallTool(requests[i..], final, run);
      if stopped {
        chunks := chunks + added;
        return;
      }
      assert requests[i..][1..] == requests[i + 1..];
      chunks := chunks + added;
      i := i + 1;
    }
    assert requests[i..] == [];
  }

  /** One pass of the loop: announce the first request, run it, and report its result or its error. */
  method CallTool(requests: seq<ToolRequest>, final: FinalReply, run: Runner) returns (added: seq<Chunk>, stopped: bool)
    requires requests != []
    ensures stopped ==> Exchange(requests, final, run) == added && added[|added| - 1].ErrorChunk?
    ensures !stopped ==> Exchange(requests, final, run) == added + Exchange(requests[1..], final, run)
  {
    var q := requests[0];
    var result := run(q);
    if result.Failure? {
      added := [ToolCallChunk(q.name, q.args), ErrorChunk(ClassifyError(result.error))];
      stopped := true;
    } else {
      added := [ToolCallChunk(q.name, q.args), ToolResultChunk(q.name, result.value)];
      stopped := false;
    }
  }

  /** The token loop of `process_message`: the reply split on spaces, each word but the last with its space. */
  method Stream(text: string) returns (tokens: seq<Chunk>)
    ensures tokens == Tokens(text)
  {
    var words := Strings.Split(text, ' ');
    tokens := [];
    var j := 0;
    while j < |words|
      invariant 0 <= j <= |words|
      invariant tokens == Tokens(text)[..j]
    {
      var token := words[j] + (if j < |words| - 1 then " " else "");
      tokens := tokens + [TokenChunk(token)];
      assert Tokens(text)[..j + 1] == Tokens(text)[..j] + [TokenChunk(token)];
      j := j + 1;
    }
    assert Tokens(text)[..j] == Tokens(text);
  }

  /** A conversation engine bound to one session. */
  class ConversationAgent {
    const sessionId: Uuid
    /** Whether the model was configured (`llm_available`). */
    const llmAvailable: bool
    var history: seq<Turn>
    var historyLoaded: bool
    /** The history the current chat was started with; `None` when there is no chat. */
    var chat: Option<seq<ChatTurn>>

    /** A chat exists exactly when the model is available. */
    predicate Valid() reads this {
      chat.Some? <==> llmAvailable
    }

    function State(): LoadState reads this {
      LoadState(history, historyLoaded, chat)
    }

    /** `ConversationAgent(session_id)`; `configured` says whether setting up the model succeeded. */
    constructor (sessionId: Uuid, configured: bool)
      ensures Valid()
      ensures this.sessionId == sessionId && llmAvailable == configured
      ensures history == [] && !historyLoaded && chat == (if configured then Some([]) else None)
    {
      this.sessionId := sessionId;
      llmAvailable := configured;
      history := [];
      historyLoaded := false;
      chat := if configured then Some([]) else None;
    }

    /** `load_history_from_db`: copies the stored conversation into the local history and the chat. */
    method LoadHistoryFromDb(db: Store.Database)
      requires Valid()
      modifies this`history, this`historyLoaded, this`chat, db`enabled, db`client, db`budget
      ensures Valid()
      ensures State() == AfterLoad(old(State()), llmAvailable, old(db.ConversationOutcome(sessionId)))
      ensures old(historyLoaded) || !llmAvailable ==> unchanged(db)
      ensures db.State() == old(db.State()) || db.State() == old(db.Attempt()).0
      ensures db.budget == if !old(historyLoaded) && llmAvailable && old(db.Attempt()).1.Some? then Store.Spend(old(db.budget))
                           else old(db.budget)
    {
      if historyLoaded || !llmAvailable {
        return;
      }
      var answer := db.GetConversationHistory(sessionId);
      if answer.Success? && answer.value != [] {
        var seed := CopyIn(answer.value);
        chat := Some(seed);
      }
      historyLoaded := true;
    }

    /** The loop of `load_history_from_db`: each stored message is appended locally and to the chat seed. */
    method CopyIn(events: seq<Store.EventRow>) returns (seed: seq<ChatTurn>)
      modifies this`history
      ensures seed == SeedTurns(events)
      ensures history == old(history) + LocalTurns(events)
    {
      seed := [];
      var i := 0;
      while i < |events|
        invariant 0 <= i <= |events|
        invariant seed == SeedTurns(events[..i])
        invariant history == old(history) + LocalTurns(events[..i])
      {
        var role := if events[i].eventType == UserMessage then UserRole else ModelRole;
        seed := seed + [ChatTurn(role, [events[i].content])];
        var localRole := if events[i].eventType == UserMessage then User else Assistant;
        history := history + [Turn(localRole, events[i].content)];
        TurnsGrow(events, i);
        i := i + 1;
      }
      assert events[..i] == events;
    }

    /**
     * `process_message`: loads the stored history on first use, then either
     * reports that the model is unavailable or records the user's message and
     * runs one turn, recording the reply when the turn completes. Tool
     * requests are answered by `run`; the source's agent answers them with
     * `execute_tool`, that is `Run(kit)`.
     */
    method ProcessMessage(userMessage: string, db: Store.Database, backend: Backend, run: Runner)
      returns (chunks: seq<Chunk>)
      requires Valid()
      modifies this`history, this`historyLoaded, this`chat, db`enabled, db`client, db`budget
      ensures Valid()
      ensures var s := AfterLoad(old(State()), llmAvailable, old(db.ConversationOutcome(sessionId)));
        && historyLoaded == s.loaded && chat == s.chat
        && (!llmAvailable ==> chunks == [ErrorChunk(NotInitialized)] && history == s.history)
        && (llmAvailable ==> chunks == Exchange(backend.requests, backend.final, run)
                             && history == s.history + [Turn(User, userMessage)] + Answer(chunks))
      ensures old(historyLoaded) || !llmAvailable ==> unchanged(db)
      ensures db.State() == old(db.State()) || db.State() == old(db.Attempt()).0
      ensures db.budget == if !old(historyLoaded) && llmAvailable && old(db.Attempt()).1.Some? then Store.Spend(old(db.budget))
                           else old(db.budget)
    {
      if !historyLoaded {
        LoadHistoryFromDb(db);
      }
      if !llmAvailable || chat.None? {
        return [ErrorChunk(NotInitialized)];
      }
      history := history + [Turn(User, userMessage)];
      chunks := Respond(backend, run);
    }

    /** The turn itself, once the user's message is recorded: the reply joins the history only when the turn completes. */
    method Respond(backend: Backend, run: Runner) returns (chunks: seq<Chunk>)
      modifies this`history
      ensures chunks == Exchange(backend.requests, backend.final, run)
      ensures history == old(history) + Answer(chunks)
    {
      var stopped;
      chunks, stopped := RunTools(backend.requests, backend.final, run);
      if stopped {
        return;
      }
      match backend.final
      case Text(t) =>
        if t != "" {
          var tokens := Stream(t);
          history := history + [Turn(Assistant, t)];
          chunks := chunks + tokens + [CompleteChunk(t)];
        } else {
          chunks := chunks + [ErrorChunk(EmptyResponse)];
        }
      case NoContent =>
        chunks := chunks + [ErrorChunk(EmptyResponse)];
      case Raises(e) =>
        chunks := chunks + [ErrorChunk(ClassifyError(e))];
    }

    /** `get_conversation_history`: a copy of the local history; nothing changes. */
    method GetConversationHistory() returns (h: seq<Turn>)
      ensures h == history
    {
      h := history;
    }

    /**
     * `clear_history`: empties the local history and marks it unloaded; an
     * available model gets a fresh chat unless restarting it fails
     * (`restartOk`), in which case the old chat is kept.
     */
    method ClearHistory(restartOk: bool)
      requires Valid()
      modifies this`history, this`historyLoaded, this`chat
      ensures Valid()
      ensures history == [] && !historyLoaded
      ensures chat == if llmAvailable && restartOk then Some([]) else old(chat)
    {
      history := [];
      historyLoaded := false;
      if llmAvailable && restartOk {
        chat := Some([]);
      }
    }
  }

  /** After clearing, the next load replaces rather than extends: the history is exactly the stored conversation. */
  lemma ReloadAfterClear(chat: Option<seq<ChatTurn>>, events: seq<Store.EventRow>)
    requires events != []
    ensures AfterLoad(LoadState([], false, chat), true, Success(events)).history == LocalTurns(events)
  {
  }
}
