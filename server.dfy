/**
 * The WebSocket endpoint (main.py: `websocket_session` and `send_ws_message`):
 * setting a session up for a connection, classifying each inbound frame,
 * relaying the engine's chunks as outbound frames together with their log
 * writes, and the teardown that always schedules post-processing.
 *
 * A connection is a `Socket` whose `sent` field holds the frames that reached
 * the client. Inbound frames arrive decoded: `None` stands for text that
 * `json.loads` rejects. The end of the inbox is the client disconnecting.
 */
module Server {
  import opened Wrappers
  import opened Models
  import Strings
  import Store
  import Agent
  import Sessions
  import Summary

  // ---------------------------------------------------------------- the socket

  /** `WebSocketState`. */
  datatype SocketState = Connecting | Connected | Disconnected

  class Socket {
    var clientState: SocketState
    var applicationState: SocketState
    /** The peer is gone although both states still read CONNECTED: sending raises. */
    var peerGone: bool
    /** The frames that reached the client, in order. */
    var sent: seq<Frame>

    /** An accepted connection. */
    constructor ()
      ensures clientState == Connected && applicationState == Connected && !peerGone && sent == []
    {
      clientState := Connected;
      applicationState := Connected;
      peerGone := false;
      sent := [];
    }

    /** The condition `send_ws_message` checks before it sends. */
    predicate Open() reads this`clientState, this`applicationState {
      clientState == Connected && applicationState == Connected
    }

    /** Whether a frame handed to `send_ws_message` now reaches the client. */
    predicate Delivers() reads this`clientState, this`applicationState, this`peerGone {
      Open() && !peerGone
    }

    /**
     * `send_ws_message`: sends only while both sides read CONNECTED; a frame
     * that cannot be sent, or whose send raises, is dropped without a trace.
     */
    method SendWsMessage(f: Frame)
      modifies this`sent
      ensures sent == old(sent) + (if Delivers() then [f] else [])
    {
      if clientState == Connected && applicationState == Connected {
        if !peerGone {
          sent := sent + [f];
        }
      }
    }

    /** `websocket.close()`. */
    method Close()
      modifies this`clientState, this`applicationState
      ensures clientState == Disconnected && applicationState == Disconnected
    {
      clientState := Disconnected;
      applicationState := Disconnected;
    }
  }

  // ---------------------------------------------------------------- inbound frames

  const InvalidFormat := "Invalid message format"

  /** What one received frame turns out to be. */
  datatype Inbound =
    | Undecodable            // `json.loads` rejected the text
    | Heartbeat              // `{"type": "ping", ...}`
    | Blank                  // no content, or only whitespace
    | Content(text: string)  // the stripped content
    | Fault(message: string) // reading the frame raised; the exception's text

  /** The text of the `AttributeError` raised when `name` is called on a value that lacks it. */
  function MissingMethod(j: Json, name: string): string {
    "'" + TypeName(j) + "' object has no attribute '" + name + "'"
  }

  predicate IsPing(j: Json) {
    j.JObject? && "type" in j.fields && j.fields["type"] == JString("ping")
  }

  /** `message.get("content", "")`. */
  function ContentField(d: Dict): Json {
    if "content" in d then d["content"] else JString("")
  }

  /** The content of a decoded object frame that is not a ping, when it is blank text. */
  predicate BlankContent(j: Json) {
    j.JObject? && !IsPing(j) && ContentField(j.fields).JString?
    && forall k :: 0 <= k < |ContentField(j.fields).s| ==> Strings.IsSpace(ContentField(j.fields).s[k])
  }

  /** How the receive loop reads one frame. */
  function Classify(data: Option<Json>): Inbound
  {
    match data
    case None => Undecodable
    case Some(j) =>
      if !j.JObject? then Fault(MissingMethod(j, "get"))
      else if IsPing(j) then Heartbeat
      else
        var c := ContentField(j.fields);
        if !c.JString? then Fault(MissingMethod(c, "strip"))
        else
          var t := Strings.StripSpace(c.s);
          if t == [] then Blank else Content(t)
  }

  /**
   * What each reading of a frame means: undecodable exactly when the text was
   * not JSON, a heartbeat exactly for a ping, blank exactly when the content
   * is missing or only whitespace, and content as the stripped, non-blank text.
   */
  lemma ClassifyCases(data: Option<Json>)
    ensures var r := Classify(data);
      && (r.Undecodable? <==> data.None?)
      && (r.Heartbeat? <==> data.Some? && IsPing(data.value))
      && (r.Blank? <==> data.Some? && BlankContent(data.value))
      && (r.Content? ==>
            && data.Some? && data.value.JObject? && !IsPing(data.value)
            && ContentField(data.value.fields).JString?
            && r.text == Strings.StripSpace(ContentField(data.value.fields).s)
            && r.text != [] && !Strings.IsSpace(r.text[0]) && !Strings.IsSpace(r.text[|r.text| - 1]))
      && (r.Fault? ==>
            data.Some? && (!data.value.JObject? || (!IsPing(data.value) && !ContentField(data.value.fields).JString?)))
  {
    if data.Some? && data.value.JObject? && !IsPing(data.value) && ContentField(data.value.fields).JString? {
      var t := Strings.StripSpace(ContentField(data.value.fields).s);
      assert Classify(data) == if t == [] then Blank else Content(t);
    }
  }

  /** The frames sent for an inbound frame that never reaches the engine. */
  function Immediate(i: Inbound): (fs: seq<Frame>)
    ensures i.Heartbeat? ==> fs == [PongFrame]
    ensures i.Blank? ==> fs == []
    ensures i.Undecodable? ==> fs == [ErrorFrame(InvalidFormat)]
    ensures i.Fault? ==> fs == [ErrorFrame(i.message)]
    ensures |fs| <= 1
  {
    match i
    case Undecodable => [ErrorFrame(InvalidFormat)]
    case Heartbeat => [PongFrame]
    case Blank => []
    case Content(_) => []
    case Fault(m) => [ErrorFrame(m)]
  }

  // ---------------------------------------------------------------- chunks to frames and log writes

  /** The frame relayed for a chunk: one frame per chunk, of the matching kind. */
  function FrameOf(c: Agent.Chunk): (f: Frame)
    ensures c.TokenChunk? <==> f.AiTokenFrame?
    ensures c.ToolCallChunk? <==> f.ToolCallFrame?
    ensures c.ToolResultChunk? <==> f.ToolResultFrame?
    ensures c.CompleteChunk? <==> f.AiCompleteFrame?
    ensures c.ErrorChunk? <==> f.ErrorFrame?
    ensures c.ErrorChunk? ==> f.message == c.error.Message()
    ensures f != PongFrame
  {
    match c
    case TokenChunk(t) => AiTokenFrame(t)
    case ToolCallChunk(n, i) => ToolCallFrame(n, i)
    case ToolResultChunk(n, r) => ToolResultFrame(n, r)
    case CompleteChunk(t) => AiCompleteFrame(t)
    case ErrorChunk(e) => ErrorFrame(e.Message())
  }

  /** The log write that follows a relayed chunk, if any: tokens and an empty reply are not logged. */
  function LogOf(sid: Uuid, c: Agent.Chunk): (w: Option<EventCreate>)
    ensures w.None? <==> c.TokenChunk? || (c.CompleteChunk? && c.content == "")
    ensures w.Some? ==> w.value.sessionId == sid
    ensures c.CompleteChunk? && c.content != "" ==> w == Some(Store.AiResponseRecord(sid, c.content, None))
    ensures c.ErrorChunk? ==> w == Some(Store.ErrorRecord(sid, c.error.Message(), None))
  {
    match c
    case TokenChunk(_) => None
    case ToolCallChunk(n, i) => Some(Store.ToolCallRecord(sid, n, i))
    case ToolResultChunk(n, r) => Some(Store.ToolResultRecord(sid, n, r))
    case CompleteChunk(t) => if t != "" then Some(Store.AiResponseRecord(sid, t, None)) else None
    case ErrorChunk(e) => Some(Store.ErrorRecord(sid, e.Message(), None))
  }


  /** `f` applied to each element in turn, the results run together. */
  function Flatten<T, U>(f: T -> seq<U>, xs: seq<T>): seq<U> {
    if xs == [] then [] else f(xs[0]) + Flatten(f, xs[1..])
  }

  lemma {:induction false} FlattenAppend<T, U>(f: T -> seq<U>, a: seq<T>, b: seq<T>)
    ensures Flatten(f, a + b) == Flatten(f, a) + Flatten(f, b)
  {
    if a == [] {
      assert a + b == b;
    } else {
      var ab := a + b;
      assert ab[0] == a[0] && ab[1..] == a[1..] + b;
      FlattenAppend(f, a[1..], b);
      calc {
        Flatten(f, ab);
        f(a[0]) + Flatten(f, a[1..] + b);
        f(a[0]) + (Flatten(f, a[1..]) + Flatten(f, b));
        (f(a[0]) + Flatten(f, a[1..])) + Flatten(f, b);
      }
    }
  }

  lemma FlattenOne<T, U>(f: T -> seq<U>, x: T)
    ensures Flatten(f, [x]) == f(x)
  {
    assert [x][1..] == [];
  }

  function FrameSeq(c: Agent.Chunk): seq<Frame> {
    [FrameOf(c)]
  }

  /** The frames relayed for `chunks`, one per chunk, in order. */
  function Frames(chunks: seq<Agent.Chunk>): seq<Frame> {
    Flatten(FrameSeq, chunks)
  }

  /** Extending a prefix by one element extends its flattening by that element's part. */
  lemma FlattenPrefix<T, U>(f: T -> seq<U>, xs: seq<T>, i: nat)
    requires i < |xs|
    ensures Flatten(f, xs[..i + 1]) == Flatten(f, xs[..i]) + f(xs[i])
  {
    assert xs[..i + 1] == xs[..i] + [xs[i]];
    FlattenAppend(f, xs[..i], [xs[i]]);
    FlattenOne(f, xs[i]);
  }

  lemma Associative<T>(a: seq<T>, b: seq<T>, c: seq<T>)
    ensures (a + b) + c == a + (b + c)
  {
  }

  /** The row the log write for `c` stores, if there is one. */
  function LogRow(sid: Uuid, c: Agent.Chunk, now: int): seq<Store.EventRow> {
    if LogOf(sid, c).Some? then [Store.Stored(LogOf(sid, c).value, now)] else []
  }

  function LogRows(sid: Uuid, now: int): Agent.Chunk -> seq<Store.EventRow> {
    c => LogRow(sid, c, now)
  }

  /** The rows the log writes for `chunks` store, in order. */
  function Logged(sid: Uuid, chunks: seq<Agent.Chunk>, now: int): seq<Store.EventRow> {
    Flatten(LogRows(sid, now), chunks)
  }

  /** The writes for a prefix of the chunks are a prefix of the writes for all of them. */
  lemma LoggedWithin(sid: Uuid, chunks: seq<Agent.Chunk>, k: nat, now: int)
    requires k <= |chunks|
    ensures |Logged(sid, chunks[..k], now)| <= |Logged(sid, chunks, now)|
  {
    assert chunks[..k] + chunks[k..] == chunks;
    FlattenAppend(LogRows(sid, now), chunks[..k], chunks[k..]);
  }

  /** What a chunk adds to `full_response`: a token's text, nothing otherwise. */
  function TokenText(c: Agent.Chunk): string {
    if c.TokenChunk? then c.content else ""
  }

  /** `full_response`: the token texts run together. */
  function Accumulated(chunks: seq<Agent.Chunk>): string {
    Flatten(TokenText, chunks)
  }

  lemma {:induction false} AccumulatedTokens(r: seq<Agent.Chunk>, texts: seq<string>)
    requires |r| == |texts|
    requires forall i :: 0 <= i < |r| ==> r[i] == Agent.TokenChunk(texts[i])
    ensures Accumulated(r) == Strings.Concat(texts)
  {
    if r != [] {
      AccumulatedTokens(r[1..], texts[1..]);
    }
  }

  /** Tokens are never logged. */
  lemma {:induction false} TokensNotLogged(sid: Uuid, r: seq<Agent.Chunk>, now: int)
    requires forall i :: 0 <= i < |r| ==> r[i].TokenChunk?
    ensures Logged(sid, r, now) == []
  {
    if r != [] {
      TokensNotLogged(sid, r[1..], now);
    }
  }

  /** For a turn that completes, `full_response` is exactly the completed reply. */
  lemma {:induction false} CompletedTurnText(requests: seq<Agent.ToolRequest>, text: string, run: Agent.Runner)
    requires text != "" && Agent.AllAccepted(requests, run)
    ensures Accumulated(Agent.Exchange(requests, Agent.Text(text), run)) == text
  {
    var r := Agent.Exchange(requests, Agent.Text(text), run);
    if requests == [] {
      var tokens := Agent.Tokens(text);
      assert r == tokens + [Agent.CompleteChunk(text)];
      FlattenAppend(TokenText, tokens, [Agent.CompleteChunk(text)]);
      FlattenOne(TokenText, Agent.CompleteChunk(text));
      AccumulatedTokens(tokens, Agent.TokenTexts(text));
      Agent.TokensRebuildText(text);
    } else {
      Agent.AllAcceptedCons(requests, run);
      var q := requests[0];
      var head := [Agent.ToolCallChunk(q.name, q.args), Agent.ToolResultChunk(q.name, run(q).value)];
      var rest := Agent.Exchange(requests[1..], Agent.Text(text), run);
      assert r == head + rest;
      CompletedTurnText(requests[1..], text, run);
      FlattenAppend(TokenText, head, rest);
    }
  }

  /**
   * For a turn that completes, the log holds a call and a result for each
   * request and then the reply; the tokens leave no row.
   */
  lemma {:induction false} CompletedTurnLog(sid: Uuid, requests: seq<Agent.ToolRequest>, text: string, run: Agent.Runner, now: int)
    requires text != "" && Agent.AllAccepted(requests, run)
    ensures var log := Logged(sid, Agent.Exchange(requests, Agent.Text(text), run), now);
      && |log| == 2 * |requests| + 1
      && log[2 * |requests|] == Store.Stored(Store.AiResponseRecord(sid, text, None), now)
  {
    var r := Agent.Exchange(requests, Agent.Text(text), run);
    if requests == [] {
      var tokens := Agent.Tokens(text);
      assert r == tokens + [Agent.CompleteChunk(text)];
      FlattenAppend(LogRows(sid, now), tokens, [Agent.CompleteChunk(text)]);
      FlattenOne(LogRows(sid, now), Agent.CompleteChunk(text));
      TokensNotLogged(sid, tokens, now);
    } else {
      Agent.AllAcceptedCons(requests, run);
      var q := requests[0];
      var head := [Agent.ToolCallChunk(q.name, q.args), Agent.ToolResultChunk(q.name, run(q).value)];
      var rest := Agent.Exchange(requests[1..], Agent.Text(text), run);
      assert r == head + rest;
      CompletedTurnLog(sid, requests[1..], text, run, now);
      FlattenAppend(LogRows(sid, now), head, rest);
      assert |Logged(sid, head, now)| == 2;
    }
  }

  // ---------------------------------------------------------------- relaying one turn

  /** The text of the exception a store call raised, if it raised. */
  function Raised<T>(r: Result<T, string>): (e: Option<string>)
    ensures e.Some? <==> r.Failure?
  {
    if r.Failure? then Some(r.error) else None
  }

  /**
   * One iteration of the relay loop: the chunk's frame is sent first, then its
   * log write is made; a write the store refuses raises (`fault`).
   */
  method RelayChunk(sock: Socket, mgr: Sessions.SessionManager, db: Store.Database, c: Agent.Chunk, now: int, soFar: string)
    returns (fullResponse: string, fault: Option<string>)
    modifies sock`sent, db`enabled, db`client, db`budget, db`events
    ensures fullResponse == soFar + TokenText(c)
    ensures sock.sent == old(sock.sent) + (if sock.Delivers() then [FrameOf(c)] else [])
    ensures db.Attempt().1.Some? == old(db.Attempt()).1.Some?
    ensures db.budget == if old(db.Attempt()).1.Some? && LogOf(mgr.sessionId, c).Some? then Store.Spend(old(db.budget))
                         else old(db.budget)
    ensures old(db.Attempt()).1.Some? && LogOf(mgr.sessionId, c).Some? ==> (fault.None? <==> old(db.Up()))
    ensures fault.Some? ==>
      && LogOf(mgr.sessionId, c).Some? && old(db.Attempt()).1.Some? && !old(db.Up())
      && fault.value == Store.StoreUnavailable && db.events == old(db.events)
    ensures fault.None? ==>
      db.events == old(db.events) + (if old(db.Attempt()).1.Some? then LogRow(mgr.sessionId, c, now) else [])
  {
    Store.ConnectIdempotent(db.State(), db.settings, db.accepts);
    sock.SendWsMessage(FrameOf(c));
    fullResponse := soFar;
    fault := None;
    match c
    case TokenChunk(t) =>
      fullResponse := fullResponse + t;
    case ToolCallChunk(n, i) =>
      var r := mgr.LogToolExecution(db, n, i, now);
      fault := Raised(r);
    case ToolResultChunk(n, j) =>
      var r := mgr.LogToolOutput(db, n, j, now);
      fault := Raised(r);
    case CompleteChunk(t) =>
      if t != "" {
        var r := mgr.LogAiOutput(db, t, None, now);
        fault := Raised(r);
      }
    case ErrorChunk(e) =>
      var r := mgr.LogErrorEvent(db, e.Message(), None, now);
      fault := Raised(r);
  }

  /**
   * How far a relay has got without a refused write: the frames of the first
   * `relayed` chunks are sent, their tokens collected, their log writes stored
   * and paid for out of the budget `budget0` the relay started with.
   */
  ghost predicate Relaying(sock: Socket, db: Store.Database, sid: Uuid, chunks: seq<Agent.Chunk>, relayed: nat, now: int,
                           fullResponse: string, sent0: seq<Frame>, events0: seq<Store.EventRow>,
                           budget0: Option<nat>, connected: bool)
    reads sock, db
  {
    && relayed <= |chunks|
    && sock.sent == sent0 + (if sock.Delivers() then Frames(chunks[..relayed]) else [])
    && fullResponse == Accumulated(chunks[..relayed])
    && db.Attempt().1.Some? == connected
    && db.events == events0 + (if connected then Logged(sid, chunks[..relayed], now) else [])
    && db.budget == (if connected then Store.Drain(budget0, |Logged(sid, chunks[..relayed], now)|) else budget0)
    && (connected ==> Store.Lasts(budget0, |Logged(sid, chunks[..relayed], now)|))
  }

  /**
   * One pass of the relay loop: the next chunk is relayed. Either the relay
   * goes on with one chunk more, or that chunk's write was refused: then the
   * budget the relay started with was exactly the writes already stored.
   */
  method RelayStep(sock: Socket, mgr: Sessions.SessionManager, db: Store.Database, chunks: seq<Agent.Chunk>, relayed: nat,
                   now: int, soFar: string, ghost sent0: seq<Frame>, ghost events0: seq<Store.EventRow>,
                   ghost budget0: Option<nat>, ghost connected: bool)
    returns (fullResponse: string, fault: Option<string>)
    requires relayed < |chunks|
    requires Relaying(sock, db, mgr.sessionId, chunks, relayed, now, soFar, sent0, events0, budget0, connected)
    modifies sock`sent, db`enabled, db`client, db`budget, db`events
    ensures sock.Delivers() == old(sock.Delivers())
    ensures fault.None? ==>
      Relaying(sock, db, mgr.sessionId, chunks, relayed + 1, now, fullResponse, sent0, events0, budget0, connected)
    ensures fault.Some? ==>
      && sock.sent == sent0 + (if sock.Delivers() then Frames(chunks[..relayed + 1]) else [])
      && fullResponse == Accumulated(chunks[..relayed + 1])
      && LogOf(mgr.sessionId, chunks[relayed]).Some? && fault.value == Store.StoreUnavailable
      && connected && db.Attempt().1.Some?
      && db.events == events0 + Logged(mgr.sessionId, chunks[..relayed], now)
      && db.budget == Store.Drain(budget0, |Logged(mgr.sessionId, chunks[..relayed + 1], now)|)
      && budget0 == Some(|Logged(mgr.sessionId, chunks[..relayed], now)|)
      && !Store.Lasts(budget0, |Logged(mgr.sessionId, chunks, now)|)
  {
    ghost var sid := mgr.sessionId;
    var c := chunks[relayed];
    ghost var n := |Logged(sid, chunks[..relayed], now)|;
    if connected {
      Store.DrainOne(budget0, n);
    }
    fullResponse, fault := RelayChunk(sock, mgr, db, c, now, soFar);
    Associative(sent0, Frames(chunks[..relayed]), FrameSeq(c));
    Associative(events0, Logged(sid, chunks[..relayed], now), LogRow(sid, c, now));
    FlattenPrefix(FrameSeq, chunks, relayed);
    FlattenPrefix(TokenText, chunks, relayed);
    FlattenPrefix(LogRows(sid, now), chunks, relayed);
    assert |Logged(sid, chunks[..relayed + 1], now)| == n + |LogRow(sid, c, now)|;
    if fault.Some? {
      LoggedWithin(sid, chunks, relayed + 1, now);
    }
  }

  /**
   * The `async for` over the engine's chunks: every chunk is relayed in order
   * until a log write raises, which ends the relay after that chunk's frame.
   * `relayed` counts the chunks whose frame was handed to the socket. On a
   * reached store every write spends one call of the budget, and a write is
   * refused exactly when the budget does not cover all the writes.
   */
  method Relay(sock: Socket, mgr: Sessions.SessionManager, db: Store.Database, chunks: seq<Agent.Chunk>, now: int)
    returns (fullResponse: string, relayed: nat, fault: Option<string>)
    modifies sock`sent, db`enabled, db`client, db`budget, db`events
    ensures relayed <= |chunks|
    ensures sock.Delivers() ==> sock.sent == old(sock.sent) + Frames(chunks[..relayed])
    ensures !sock.Delivers() ==> sock.sent == old(sock.sent)
    ensures fullResponse == Accumulated(chunks[..relayed])
    ensures fault.None? ==> relayed == |chunks|
    ensures fault.Some? ==>
      && 0 < relayed && LogOf(mgr.sessionId, chunks[relayed - 1]).Some?
      && fault.value == Store.StoreUnavailable
    ensures old(db.Attempt()).1.None? ==> fault.None? && db.events == old(db.events)
    ensures old(db.Attempt()).1.Some? ==>
      db.events == old(db.events) + Logged(mgr.sessionId, chunks[..if fault.Some? then relayed - 1 else relayed], now)
    ensures old(db.budget).None? ==> fault.None? && db.budget.None?
    ensures db.Attempt().1.Some? == old(db.Attempt()).1.Some?
    ensures db.budget == if old(db.Attempt()).1.Some? then Store.Drain(old(db.budget), |Logged(mgr.sessionId, chunks[..relayed], now)|)
                         else old(db.budget)
    ensures old(db.Attempt()).1.Some? ==> (fault.None? <==> Store.Lasts(old(db.budget), |Logged(mgr.sessionId, chunks, now)|))
    ensures old(db.Attempt()).1.Some? && fault.Some? ==>
      old(db.budget) == Some(|Logged(mgr.sessionId, chunks[..Written(relayed, fault)], now)|)
  {
    fullResponse := "";
    relayed := 0;
    fault := None;
    ghost var connected := old(db.Attempt()).1.Some?;
    ghost var delivers := sock.Delivers();
    while relayed < |chunks|
      invariant sock.Delivers() == delivers
      invariant Relaying(sock, db, mgr.sessionId, chunks, relayed, now, fullResponse, old(sock.sent), old(db.events),
                         old(db.budget), connected)
      invariant fault.None?
    {
      fullResponse, fault := RelayStep(sock, mgr, db, chunks, relayed, now, fullResponse,
                                       old(sock.sent), old(db.events), old(db.budget), connected);
      relayed := relayed + 1;
      if fault.Some? {
        assert chunks[..relayed - 1] == chunks[..Written(relayed, fault)];
        return;
      }
    }
    assert chunks[..relayed] == chunks;
  }

  // ---------------------------------------------------------------- one received frame

  /** A received frame, the model's side of the turn it may start, and the time it arrived. */
  datatype Incoming = Incoming(data: Option<Json>, backend: Agent.Backend, at: int)

  /** What `process_message` yields for one message. */
  function Engine(available: bool, backend: Agent.Backend, run: Agent.Runner): (r: seq<Agent.Chunk>)
    ensures r != []
  {
    if available then Agent.Exchange(backend.requests, backend.final, run)
    else [Agent.ErrorChunk(Agent.NotInitialized)]
  }

  /** The error frame sent for an exception raised while handling a frame, if one was raised. */
  function FaultFrames(fault: Option<string>): seq<Frame> {
    if fault.Some? then [ErrorFrame(fault.value)] else []
  }

  /** How many relayed chunks had their log write stored: all but one whose write raised. */
  function Written(relayed: nat, fault: Option<string>): nat {
    if fault.Some? && relayed > 0 then relayed - 1 else relayed
  }

  /**
   * The store calls a frame with content makes before its chunks are
   * relayed: the user's message, and on the agent's first turn with a model
   * the stored history.
   */
  function Loads(available: bool, loaded: bool): nat {
    if available && !loaded then 2 else 1
  }

  /** `agent.process_message(user_input)`, seen from the receive loop: the chunks it yields. */
  method StartTurn(agent: Agent.ConversationAgent, db: Store.Database, text: string, backend: Agent.Backend, run: Agent.Runner)
    returns (chunks: seq<Agent.Chunk>)
    requires agent.Valid()
    modifies agent`history, agent`historyLoaded, agent`chat, db`enabled, db`client, db`budget
    ensures agent.Valid()
    ensures chunks == Engine(agent.llmAvailable, backend, run)
    ensures db.Attempt().1.Some? == old(db.Attempt()).1.Some?
    ensures old(db.budget).None? ==> db.budget.None?
    ensures db.budget == if old(db.Attempt()).1.Some? then Store.Drain(old(db.budget), Loads(agent.llmAvailable, old(agent.historyLoaded)) - 1)
                         else old(db.budget)
  {
    Store.ConnectIdempotent(db.State(), db.settings, db.accepts);
    chunks := agent.ProcessMessage(text, db, backend, run);
  }

  /** The `except Exception` branch of the receive loop: the error is sent only while the client side reads CONNECTED. */
  method ReportFault(sock: Socket, fault: Option<string>)
    modifies sock`sent
    ensures sock.sent == old(sock.sent) + (if sock.Delivers() then FaultFrames(fault) else [])
  {
    if fault.Some? && sock.clientState == Connected {
      sock.SendWsMessage(ErrorFrame(fault.value));
    }
  }

  /**
   * Relaying a turn's chunks: a log write that raises ends the relay, and the
   * error is then reported to the client.
   */
  method Deliver(sock: Socket, mgr: Sessions.SessionManager, db: Store.Database, chunks: seq<Agent.Chunk>, now: int)
    returns (relayed: nat, fault: Option<string>)
    modifies sock`sent, db`enabled, db`client, db`budget, db`events
    ensures relayed <= |chunks| && (fault.None? ==> relayed == |chunks|)
    ensures sock.Delivers() ==> sock.sent == old(sock.sent) + Frames(chunks[..relayed]) + FaultFrames(fault)
    ensures !sock.Delivers() ==> sock.sent == old(sock.sent)
    ensures old(db.Attempt()).1.None? ==> fault.None? && db.events == old(db.events)
    ensures old(db.Attempt()).1.Some? ==>
      db.events == old(db.events) + Logged(mgr.sessionId, chunks[..Written(relayed, fault)], now)
    ensures old(db.budget).None? ==> fault.None? && relayed == |chunks|
    ensures fault.Some? ==> fault.value == Store.StoreUnavailable
    ensures db.Attempt().1.Some? == old(db.Attempt()).1.Some?
    ensures old(db.budget).None? ==> db.budget.None?
    ensures db.budget == if old(db.Attempt()).1.Some? then Store.Drain(old(db.budget), |Logged(mgr.sessionId, chunks[..relayed], now)|)
                         else old(db.budget)
    ensures old(db.Attempt()).1.Some? ==> (fault.None? <==> Store.Lasts(old(db.budget), |Logged(mgr.sessionId, chunks, now)|))
    ensures old(db.Attempt()).1.Some? && fault.Some? ==>
      old(db.budget) == Some(|Logged(mgr.sessionId, chunks[..Written(relayed, fault)], now)|)
  {
    var fullResponse;
    fullResponse, relayed, fault := Relay(sock, mgr, db, chunks, now);
    ReportFault(sock, fault);
  }

  /**
   * A frame with content: the user's message is logged, and only after that
   * is the engine run and its chunks relayed. When the log write raises, the frame ends with
   * an error frame, sent only while the client side reads CONNECTED.
   * `frames` are the frames sent, which reach the client when the socket
   * delivers; `rows` are the events stored.
   */
  method Converse(sock: Socket, mgr: Sessions.SessionManager, agent: Agent.ConversationAgent, db: Store.Database,
                  text: string, backend: Agent.Backend, run: Agent.Runner, now: int)
    returns (chunks: seq<Agent.Chunk>, relayed: nat, fault: Option<string>,
             ghost frames: seq<Frame>, ghost rows: seq<Store.EventRow>)
    requires agent.Valid()
    modifies sock`sent, agent`history, agent`historyLoaded, agent`chat, db`enabled, db`client, db`budget, db`events
    ensures agent.Valid()
    ensures relayed <= |chunks| && (fault.None? ==> relayed == |chunks|)
    ensures frames == Frames(chunks[..relayed]) + FaultFrames(fault)
    ensures sock.sent == old(sock.sent) + (if sock.Delivers() then frames else [])
    ensures db.events == old(db.events) + rows
    ensures old(db.Attempt()).1.Some? && !old(db.Up()) ==>
      && chunks == [] && fault == Some(Store.StoreUnavailable) && rows == []
      && agent.history == old(agent.history) && agent.historyLoaded == old(agent.historyLoaded) && agent.chat == old(agent.chat)
    ensures old(db.Attempt()).1.None? ==>
      chunks == Engine(agent.llmAvailable, backend, run) && fault.None? && rows == []
    ensures old(db.Attempt()).1.Some? && old(db.Up()) ==>
      && chunks == Engine(agent.llmAvailable, backend, run)
      && rows == [Store.Stored(Store.UserMessageRecord(mgr.sessionId, text), now)]
                 + Logged(mgr.sessionId, chunks[..Written(relayed, fault)], now)
    ensures old(db.budget).None? ==> fault.None? && relayed == |chunks|
    ensures fault.Some? ==> fault.value == Store.StoreUnavailable
    ensures db.Attempt().1.Some? == old(db.Attempt()).1.Some?
    ensures old(db.budget).None? ==> db.budget.None?
    ensures var before := Store.Drain(old(db.budget), Loads(agent.llmAvailable, old(agent.historyLoaded)));
      db.budget == if old(db.Attempt()).1.Some? then Store.Drain(before, |Logged(mgr.sessionId, chunks[..relayed], now)|)
                   else old(db.budget)
    ensures var before := Store.Drain(old(db.budget), Loads(agent.llmAvailable, old(agent.historyLoaded)));
      old(db.Attempt()).1.Some? ==> (fault.None? <==> old(db.Up()) && Store.Lasts(before, |Logged(mgr.sessionId, chunks, now)|))
    ensures var before := Store.Drain(old(db.budget), Loads(agent.llmAvailable, old(agent.historyLoaded)));
      old(db.Attempt()).1.Some? && old(db.Up()) && fault.Some? ==>
        before == Some(|Logged(mgr.sessionId, chunks[..Written(relayed, fault)], now)|)
  {
    var logged := mgr.LogUserInput(db, text, now);
    if logged.Failure? {
      chunks, relayed, fault := [], 0, Some(logged.error);
      frames, rows := FaultFrames(fault), [];
      ReportFault(sock, fault);
      return;
    }
    Store.ConnectIdempotent(old(db.State()), db.settings, db.accepts);
    chunks, relayed, fault, frames, rows := Reply(sock, mgr, agent, db, text, backend, run, now,
                                                  old(db.Attempt()).1.Some?, old(db.budget), old(db.events));
  }

  /**
   * `Converse` once the user's message is logged: `budget0` and `events0`
   * are the budget and the events before that write, which on a reached
   * store was answered and stored.
   */
  method Reply(sock: Socket, mgr: Sessions.SessionManager, agent: Agent.ConversationAgent, db: Store.Database,
               text: string, backend: Agent.Backend, run: Agent.Runner, now: int,
               ghost connected: bool, ghost budget0: Option<nat>, ghost events0: seq<Store.EventRow>)
    returns (chunks: seq<Agent.Chunk>, relayed: nat, fault: Option<string>,
             ghost frames: seq<Frame>, ghost rows: seq<Store.EventRow>)
    requires agent.Valid()
    requires db.Attempt().1.Some? == connected
    requires db.budget == if connected then Store.Spend(budget0) else budget0
    requires connected ==> Store.Lasts(budget0, 1)
    requires db.events == events0 + (if connected then [Store.Stored(Store.UserMessageRecord(mgr.sessionId, text), now)] else [])
    modifies sock`sent, agent`history, agent`historyLoaded, agent`chat, db`enabled, db`client, db`budget, db`events
    ensures agent.Valid()
    ensures relayed <= |chunks| && (fault.None? ==> relayed == |chunks|)
    ensures frames == Frames(chunks[..relayed]) + FaultFrames(fault)
    ensures sock.sent == old(sock.sent) + (if sock.Delivers() then frames else [])
    ensures db.events == events0 + rows
    ensures chunks == Engine(agent.llmAvailable, backend, run)
    ensures rows == if connected then [Store.Stored(Store.UserMessageRecord(mgr.sessionId, text), now)]
                                      + Logged(mgr.sessionId, chunks[..Written(relayed, fault)], now)
                    else []
    ensures !connected ==> fault.None?
    ensures budget0.None? ==> fault.None? && relayed == |chunks| && db.budget.None?
    ensures fault.Some? ==> fault.value == Store.StoreUnavailable
    ensures db.Attempt().1.Some? == connected
    ensures var before := Store.Drain(budget0, Loads(agent.llmAvailable, old(agent.historyLoaded)));
      db.budget == if connected then Store.Drain(before, |Logged(mgr.sessionId, chunks[..relayed], now)|) else budget0
    ensures var before := Store.Drain(budget0, Loads(agent.llmAvailable, old(agent.historyLoaded)));
      connected ==> (fault.None? <==> Store.Lasts(before, |Logged(mgr.sessionId, chunks, now)|))
    ensures var before := Store.Drain(budget0, Loads(agent.llmAvailable, old(agent.historyLoaded)));
      connected && fault.Some? ==> before == Some(|Logged(mgr.sessionId, chunks[..Written(relayed, fault)], now)|)
  {
    if connected {
      Store.SpendDrain(budget0, Loads(agent.llmAvailable, agent.historyLoaded));
    }
    chunks, relayed, fault := RunTurn(sock, mgr, agent, db, text, backend, run, now);
    frames := Frames(chunks[..relayed]) + FaultFrames(fault);
    rows := if connected then [Store.Stored(Store.UserMessageRecord(mgr.sessionId, text), now)]
                              + Logged(mgr.sessionId, chunks[..Written(relayed, fault)], now)
            else [];
    if connected {
      Associative(events0, [Store.Stored(Store.UserMessageRecord(mgr.sessionId, text), now)],
                  Logged(mgr.sessionId, chunks[..Written(relayed, fault)], now));
    }
  }

  /**
   * The turn a logged message starts: the engine is run on it, and its
   * chunks are relayed. The budget pays for the history load of a first
   * turn, then for the relayed chunks' writes.
   */
  method RunTurn(sock: Socket, mgr: Sessions.SessionManager, agent: Agent.ConversationAgent, db: Store.Database,
                 text: string, backend: Agent.Backend, run: Agent.Runner, now: int)
    returns (chunks: seq<Agent.Chunk>, relayed: nat, fault: Option<string>)
    requires agent.Valid()
    modifies sock`sent, agent`history, agent`historyLoaded, agent`chat, db`enabled, db`client, db`budget, db`events
    ensures agent.Valid()
    ensures chunks == Engine(agent.llmAvailable, backend, run)
    ensures relayed <= |chunks| && (fault.None? ==> relayed == |chunks|)
    ensures sock.sent == old(sock.sent) + (if sock.Delivers() then Frames(chunks[..relayed]) + FaultFrames(fault) else [])
    ensures old(db.Attempt()).1.None? ==> fault.None?
    ensures db.events == old(db.events) + (if old(db.Attempt()).1.Some? then Logged(mgr.sessionId, chunks[..Written(relayed, fault)], now) else [])
    ensures old(db.budget).None? ==> fault.None? && relayed == |chunks| && db.budget.None?
    ensures fault.Some? ==> fault.value == Store.StoreUnavailable
    ensures db.Attempt().1.Some? == old(db.Attempt()).1.Some?
    ensures var before := Store.Drain(old(db.budget), Loads(agent.llmAvailable, old(agent.historyLoaded)) - 1);
      db.budget == if old(db.Attempt()).1.Some? then Store.Drain(before, |Logged(mgr.sessionId, chunks[..relayed], now)|)
                   else old(db.budget)
    ensures var before := Store.Drain(old(db.budget), Loads(agent.llmAvailable, old(agent.historyLoaded)) - 1);
      old(db.Attempt()).1.Some? ==> (fault.None? <==> Store.Lasts(before, |Logged(mgr.sessionId, chunks, now)|))
    ensures var before := Store.Drain(old(db.budget), Loads(agent.llmAvailable, old(agent.historyLoaded)) - 1);
      old(db.Attempt()).1.Some? && fault.Some? ==> before == Some(|Logged(mgr.sessionId, chunks[..Written(relayed, fault)], now)|)
  {
    chunks := StartTurn(agent, db, text, backend, run);
    relayed, fault := Deliver(sock, mgr, db, chunks, now);
    Associative(old(sock.sent), Frames(chunks[..relayed]), FaultFrames(fault));
  }

  /** The pass of the receive loop for a frame without content: its immediate answer, if any. */
  method Answer(sock: Socket, inbound: Inbound)
    requires !inbound.Content?
    modifies sock`sent
    ensures sock.sent == old(sock.sent) + (if sock.Delivers() then Immediate(inbound) else [])
  {
    match inbound
    case Undecodable =>
      sock.SendWsMessage(ErrorFrame(InvalidFormat));
    case Heartbeat =>
      sock.SendWsMessage(PongFrame);
    case Blank =>
    case Fault(msg) =>
      ReportFault(sock, Some(msg));
  }

  /**
   * The frames a handled frame sends when the store always answers, or is
   * never reached: the immediate answer, or the frames of every chunk the
   * engine yields for the content.
   */
  function FramesFor(available: bool, run: Agent.Runner, m: Incoming): seq<Frame> {
    var i := Classify(m.data);
    if i.Content? then Frames(Engine(available, m.backend, run)) else Immediate(i)
  }

  /**
   * The events a handled frame stores when the store always answers: the
   * user's message and then the log writes of every chunk.
   */
  function RowsFor(sid: Uuid, available: bool, run: Agent.Runner, m: Incoming): seq<Store.EventRow> {
    var i := Classify(m.data);
    if i.Content? then [Store.Stored(Store.UserMessageRecord(sid, i.text), m.at)] + Logged(sid, Engine(available, m.backend, run), m.at)
    else []
  }

  /** `Converse` on the content of a frame, seen frame by frame. */
  method HandleContent(sock: Socket, mgr: Sessions.SessionManager, agent: Agent.ConversationAgent, db: Store.Database,
                       m: Incoming, run: Agent.Runner)
    returns (chunks: seq<Agent.Chunk>, relayed: nat, fault: Option<string>,
             ghost frames: seq<Frame>, ghost rows: seq<Store.EventRow>)
    requires agent.Valid() && Classify(m.data).Content?
    modifies sock`sent, agent`history, agent`historyLoaded, agent`chat, db`enabled, db`client, db`budget, db`events
    ensures agent.Valid()
    ensures relayed <= |chunks| && frames == Frames(chunks[..relayed]) + FaultFrames(fault)
    ensures sock.sent == old(sock.sent) + (if sock.Delivers() then frames else [])
    ensures db.events == old(db.events) + rows
    ensures db.Attempt().1.Some? == old(db.Attempt()).1.Some?
    ensures old(db.budget).None? ==> db.budget.None?
    ensures !(old(db.Attempt()).1.Some? && !old(db.Up())) ==> chunks == Engine(agent.llmAvailable, m.backend, run)
    ensures old(db.Attempt()).1.Some? && !old(db.Up()) ==>
      chunks == [] && fault == Some(Store.StoreUnavailable) && rows == []
    ensures old(db.Attempt()).1.Some? && old(db.Up()) ==>
      rows == [Store.Stored(Store.UserMessageRecord(mgr.sessionId, Classify(m.data).text), m.at)]
              + Logged(mgr.sessionId, chunks[..Written(relayed, fault)], m.at)
    ensures old(db.Attempt()).1.None? ==> rows == []
    ensures fault.Some? ==> fault.value == Store.StoreUnavailable
    ensures old(db.budget).None? || old(db.Attempt()).1.None? ==>
      fault.None? && frames == FramesFor(agent.llmAvailable, run, m)
    ensures old(db.budget).None? && old(db.Attempt()).1.Some? ==>
      rows == RowsFor(mgr.sessionId, agent.llmAvailable, run, m)
    ensures var before := Store.Drain(old(db.budget), Loads(agent.llmAvailable, old(agent.historyLoaded)));
      db.budget == if old(db.Attempt()).1.Some? then Store.Drain(before, |Logged(mgr.sessionId, chunks[..relayed], m.at)|)
                   else old(db.budget)
    ensures var before := Store.Drain(old(db.budget), Loads(agent.llmAvailable, old(agent.historyLoaded)));
      old(db.Attempt()).1.Some? ==> (fault.None? <==> old(db.Up()) && Store.Lasts(before, |Logged(mgr.sessionId, chunks, m.at)|))
    ensures var before := Store.Drain(old(db.budget), Loads(agent.llmAvailable, old(agent.historyLoaded)));
      old(db.Attempt()).1.Some? && old(db.Up()) && fault.Some? ==>
        before == Some(|Logged(mgr.sessionId, chunks[..Written(relayed, fault)], m.at)|)
  {
    chunks, relayed, fault, frames, rows := Converse(sock, mgr, agent, db, Classify(m.data).text, m.backend, run, m.at);
    if fault.None? {
      assert chunks[..relayed] == chunks;
    }
  }

  /**
   * One pass of the receive loop, for a frame that arrived: a ping is answered
   * with a pong, a blank frame is ignored, an undecodable or unreadable frame
   * is answered with an error frame, and content is handed to `Converse`.
   * `frames` are the frames the pass sends, which reach the client when the
   * socket delivers; `rows` are the events it stores.
   */
  method HandleFrame(sock: Socket, mgr: Sessions.SessionManager, agent: Agent.ConversationAgent, db: Store.Database,
                     m: Incoming, run: Agent.Runner)
    returns (inbound: Inbound, chunks: seq<Agent.Chunk>, relayed: nat, fault: Option<string>,
             ghost frames: seq<Frame>, ghost rows: seq<Store.EventRow>)
    requires agent.Valid()
    modifies sock`sent, agent`history, agent`historyLoaded, agent`chat, db`enabled, db`client, db`budget, db`events
    ensures agent.Valid()
    ensures inbound == Classify(m.data) && relayed <= |chunks|
    ensures sock.sent == old(sock.sent) + (if sock.Delivers() then frames else [])
    ensures db.events == old(db.events) + rows
    ensures db.Attempt().1.Some? == old(db.Attempt()).1.Some?
    ensures old(db.budget).None? ==> db.budget.None?
    ensures !inbound.Content? ==>
      && frames == Immediate(inbound) && rows == [] && chunks == [] && fault.None? && unchanged(db)
      && agent.history == old(agent.history) && agent.historyLoaded == old(agent.historyLoaded) && agent.chat == old(agent.chat)
    ensures inbound.Content? ==> frames == Frames(chunks[..relayed]) + FaultFrames(fault)
    ensures inbound.Content? && !(old(db.Attempt()).1.Some? && !old(db.Up())) ==>
      chunks == Engine(agent.llmAvailable, m.backend, run)
    ensures inbound.Content? && old(db.Attempt()).1.Some? && !old(db.Up()) ==>
      chunks == [] && fault == Some(Store.StoreUnavailable) && rows == []
    ensures inbound.Content? && old(db.Attempt()).1.Some? && old(db.Up()) ==>
      rows == [Store.Stored(Store.UserMessageRecord(mgr.sessionId, inbound.text), m.at)]
              + Logged(mgr.sessionId, chunks[..Written(relayed, fault)], m.at)
    ensures old(db.Attempt()).1.None? ==> rows == []
    ensures fault.Some? ==> fault.value == Store.StoreUnavailable
    ensures old(db.budget).None? || old(db.Attempt()).1.None? ==>
      fault.None? && frames == FramesFor(agent.llmAvailable, run, m)
    ensures old(db.budget).None? && old(db.Attempt()).1.Some? ==>
      rows == RowsFor(mgr.sessionId, agent.llmAvailable, run, m)
    ensures inbound.Content? ==>
      var before := Store.Drain(old(db.budget), Loads(agent.llmAvailable, old(agent.historyLoaded)));
        db.budget == if old(db.Attempt()).1.Some? then Store.Drain(before, |Logged(mgr.sessionId, chunks[..relayed], m.at)|)
                     else old(db.budget)
    ensures inbound.Content? ==>
      var before := Store.Drain(old(db.budget), Loads(agent.llmAvailable, old(agent.historyLoaded)));
        old(db.Attempt()).1.Some? ==> (fault.None? <==> old(db.Up()) && Store.Lasts(before, |Logged(mgr.sessionId, chunks, m.at)|))
    ensures inbound.Content? ==>
      var before := Store.Drain(old(db.budget), Loads(agent.llmAvailable, old(agent.historyLoaded)));
        old(db.Attempt()).1.Some? && old(db.Up()) && fault.Some? ==>
          before == Some(|Logged(mgr.sessionId, chunks[..Written(relayed, fault)], m.at)|)
  {
    inbound := Classify(m.data);
    if inbound.Content? {
      chunks, relayed, fault, frames, rows := HandleContent(sock, mgr, agent, db, m, run);
    } else {
      chunks, relayed, fault := [], 0, None;
      frames, rows := Immediate(inbound), [];
      Answer(sock, inbound);
    }
  }

  // ---------------------------------------------------------------- one connection

  /**
   * The `finally` block: post-processing is scheduled in every case, and the
   * socket is closed only when its client side still reads CONNECTED.
   */
  method Teardown(sock: Socket, sched: Summary.Scheduler, sessionId: Uuid, startTime: int)
    modifies sock`clientState, sock`applicationState, sched
    ensures sched.pending == old(sched.pending) + [(sessionId, startTime)]
    ensures old(sock.clientState) == Connected ==> sock.clientState == Disconnected && sock.applicationState == Disconnected
    ensures old(sock.clientState) != Connected ==>
      sock.clientState == old(sock.clientState) && sock.applicationState == old(sock.applicationState)
  {
    sched.SchedulePostProcessing(sessionId, startTime);
    if sock.clientState == Connected {
      sock.Close();
    }
  }

  /** The parts run together, in order. */
  function Chain<T>(parts: seq<seq<T>>): seq<T> {
    if parts == [] then [] else Chain(parts[..|parts| - 1]) + parts[|parts| - 1]
  }

  /** `FramesFor` of each frame in turn. */
  function RepliesFor(available: bool, run: Agent.Runner, ms: seq<Incoming>): seq<seq<Frame>> {
    if ms == [] then [] else RepliesFor(available, run, ms[..|ms| - 1]) + [FramesFor(available, run, ms[|ms| - 1])]
  }

  /** `RowsFor` of each frame in turn. */
  function WritesFor(sid: Uuid, available: bool, run: Agent.Runner, ms: seq<Incoming>): seq<seq<Store.EventRow>> {
    if ms == [] then [] else WritesFor(sid, available, run, ms[..|ms| - 1]) + [RowsFor(sid, available, run, ms[|ms| - 1])]
  }

  lemma EachPrefix(sid: Uuid, available: bool, run: Agent.Runner, ms: seq<Incoming>, i: nat)
    requires i < |ms|
    ensures RepliesFor(available, run, ms[..i + 1]) == RepliesFor(available, run, ms[..i]) + [FramesFor(available, run, ms[i])]
    ensures WritesFor(sid, available, run, ms[..i + 1]) == WritesFor(sid, available, run, ms[..i]) + [RowsFor(sid, available, run, ms[i])]
  {
    assert ms[..i + 1][..i] == ms[..i];
  }

  /**
   * Frame by frame, a frame without content got its immediate answer and
   * stored nothing.
   */
  ghost predicate AnsweredAtOnce(replies: seq<seq<Frame>>, rows: seq<seq<Store.EventRow>>, ms: seq<Incoming>)
    decreases |ms|
  {
    && |replies| == |ms| == |rows|
    && (ms != [] ==>
          var n := |ms| - 1;
          && AnsweredAtOnce(replies[..n], rows[..n], ms[..n])
          && (!Classify(ms[n].data).Content? ==> replies[n] == Immediate(Classify(ms[n].data)) && rows[n] == []))
  }

  lemma AnsweredSnoc(replies: seq<seq<Frame>>, rows: seq<seq<Store.EventRow>>, ms: seq<Incoming>, i: nat,
                     frames: seq<Frame>, written: seq<Store.EventRow>)
    requires i < |ms| && AnsweredAtOnce(replies, rows, ms[..i])
    requires !Classify(ms[i].data).Content? ==> frames == Immediate(Classify(ms[i].data)) && written == []
    ensures AnsweredAtOnce(replies + [frames], rows + [written], ms[..i + 1])
  {
    assert (replies + [frames])[..i] == replies;
    assert (rows + [written])[..i] == rows;
    assert ms[..i + 1][..i] == ms[..i];
  }

  lemma {:induction false} AnsweredEach(replies: seq<seq<Frame>>, rows: seq<seq<Store.EventRow>>, ms: seq<Incoming>)
    requires AnsweredAtOnce(replies, rows, ms)
    ensures forall k :: 0 <= k < |ms| && !Classify(ms[k].data).Content? ==>
      replies[k] == Immediate(Classify(ms[k].data)) && rows[k] == []
    decreases |ms|
  {
    if ms != [] {
      var n := |ms| - 1;
      AnsweredEach(replies[..n], rows[..n], ms[..n]);
      forall k | 0 <= k < |ms| && !Classify(ms[k].data).Content?
        ensures replies[k] == Immediate(Classify(ms[k].data)) && rows[k] == []
      {
        if k < n {
          assert ms[..n][k] == ms[k];
          assert replies[..n][k] == replies[k] && rows[..n][k] == rows[k];
        } else {
          assert k == n;
        }
      }
    }
  }

  lemma ChainSnoc<T>(parts: seq<seq<T>>, last: seq<T>)
    ensures Chain(parts + [last]) == Chain(parts) + last
  {
    assert (parts + [last])[..|parts|] == parts;
  }

  /**
   * The bookkeeping of the receive loop after the frames `ms`: one reply and
   * one list of writes per frame, as each frame alone calls for.
   */
  ghost predicate Accounted(sid: Uuid, available: bool, run: Agent.Runner, ms: seq<Incoming>,
                            replies: seq<seq<Frame>>, rows: seq<seq<Store.EventRow>>, connected: bool, unlimited: bool)
  {
    && |replies| == |ms| == |rows|
    && AnsweredAtOnce(replies, rows, ms)
    && (!connected ==> Chain(rows) == [])
    && (unlimited || !connected ==> replies == RepliesFor(available, run, ms))
    && (unlimited && connected ==> rows == WritesFor(sid, available, run, ms))
  }

  /** What one pass of the loop sends and stores for the frame `m`. */
  ghost predicate Answered(sid: Uuid, available: bool, run: Agent.Runner, m: Incoming,
                           frames: seq<Frame>, written: seq<Store.EventRow>, connected: bool, unlimited: bool)
  {
    && (!Classify(m.data).Content? ==> frames == Immediate(Classify(m.data)) && written == [])
    && (!connected ==> written == [])
    && (unlimited || !connected ==> frames == FramesFor(available, run, m))
    && (unlimited && connected ==> written == RowsFor(sid, available, run, m))
  }

  /**
   * One pass of the receive loop, seen from the loop: what it sends and what
   * it stores. For a frame with content, `chunks` are the engine's chunks,
   * of which `relayed` were relayed before the `fault` a refused write raised.
   */
  method ReceiveOne(sock: Socket, mgr: Sessions.SessionManager, agent: Agent.ConversationAgent, db: Store.Database,
                    m: Incoming, run: Agent.Runner)
    returns (ghost frames: seq<Frame>, ghost written: seq<Store.EventRow>,
             ghost chunks: seq<Agent.Chunk>, ghost relayed: nat, ghost fault: Option<string>)
    requires agent.Valid()
    modifies sock`sent, agent`history, agent`historyLoaded, agent`chat, db`enabled, db`client, db`budget, db`events
    ensures agent.Valid()
    ensures sock.Delivers() == old(sock.Delivers())
    ensures sock.Delivers() ==> sock.sent == old(sock.sent) + frames
    ensures !sock.Delivers() ==> sock.sent == old(sock.sent)
    ensures db.events == old(db.events) + written
    ensures db.Attempt().1.Some? == old(db.Attempt()).1.Some?
    ensures old(db.budget).None? ==> db.budget.None?
    ensures Answered(mgr.sessionId, agent.llmAvailable, run, m, frames, written,
                     old(db.Attempt()).1.Some?, old(db.budget).None?)
    ensures Classify(m.data).Content? ==>
      && relayed <= |chunks| && frames == Frames(chunks[..relayed]) + FaultFrames(fault)
      && chunks == (if old(db.Attempt()).1.Some? && !old(db.Up()) then [] else Engine(agent.llmAvailable, m.backend, run))
      && (fault.Some? ==> fault.value == Store.StoreUnavailable)
      && (old(db.Attempt()).1.Some? && !old(db.Up()) ==> fault.Some? && written == [])
      && (old(db.Attempt()).1.Some? && old(db.Up()) ==>
            written == [Store.Stored(Store.UserMessageRecord(mgr.sessionId, Classify(m.data).text), m.at)]
                       + Logged(mgr.sessionId, chunks[..Written(relayed, fault)], m.at))
    ensures Classify(m.data).Content? ==>
      var before := Store.Drain(old(db.budget), Loads(agent.llmAvailable, old(agent.historyLoaded)));
        && db.budget == (if old(db.Attempt()).1.Some? then Store.Drain(before, |Logged(mgr.sessionId, chunks[..relayed], m.at)|)
                         else old(db.budget))
        && (old(db.Attempt()).1.Some? ==> (fault.None? <==> old(db.Up()) && Store.Lasts(before, |Logged(mgr.sessionId, chunks, m.at)|)))
        && (old(db.Attempt()).1.Some? && old(db.Up()) && fault.Some? ==>
              before == Some(|Logged(mgr.sessionId, chunks[..Written(relayed, fault)], m.at)|))
  {
    var inbound, chunks', relayed', fault';
    inbound, chunks', relayed', fault', frames, written := HandleFrame(sock, mgr, agent, db, m, run);
    chunks, relayed, fault := chunks', relayed', fault';
  }

  /** The bookkeeping of one pass: the replies and writes so far, extended by one frame's. */
  lemma Advance(sid: Uuid, available: bool, run: Agent.Runner, inbox: seq<Incoming>, handled: nat,
                replies: seq<seq<Frame>>, rows: seq<seq<Store.EventRow>>, frames: seq<Frame>, written: seq<Store.EventRow>,
                connected: bool, unlimited: bool)
    requires handled < |inbox|
    requires Accounted(sid, available, run, inbox[..handled], replies, rows, connected, unlimited)
    requires Answered(sid, available, run, inbox[handled], frames, written, connected, unlimited)
    ensures Accounted(sid, available, run, inbox[..handled + 1], replies + [frames], rows + [written], connected, unlimited)
    ensures Chain(replies + [frames]) == Chain(replies) + frames
    ensures Chain(rows + [written]) == Chain(rows) + written
  {
    EachPrefix(sid, available, run, inbox, handled);
    AnsweredSnoc(replies, rows, inbox, handled, frames, written);
    ChainSnoc(replies, frames);
    ChainSnoc(rows, written);
  }

  /**
   * How far the receive loop has got: `replies` and `rows` are what each
   * handled frame sent and stored since the socket had sent `sent0` and the
   * store held `events0`.
   */
  ghost predicate Reached(sock: Socket, db: Store.Database, sent0: seq<Frame>, events0: seq<Store.EventRow>,
                          replies: seq<seq<Frame>>, rows: seq<seq<Store.EventRow>>, delivers: bool, connected: bool, unlimited: bool)
    reads sock`sent, db
  {
    && sock.sent == sent0 + (if delivers then Chain(replies) else [])
    && db.events == events0 + Chain(rows)
    && db.Attempt().1.Some? == connected
    && (unlimited ==> db.budget.None?)
  }

  /** One pass of the receive loop, with the loop's bookkeeping carried one frame further. */
  method ReceiveStep(sock: Socket, mgr: Sessions.SessionManager, agent: Agent.ConversationAgent, db: Store.Database,
                     inbox: seq<Incoming>, handled: nat, run: Agent.Runner,
                     ghost replies: seq<seq<Frame>>, ghost rows: seq<seq<Store.EventRow>>, ghost sent0: seq<Frame>,
                     ghost events0: seq<Store.EventRow>, ghost delivers: bool, ghost connected: bool, ghost unlimited: bool)
    returns (ghost replies': seq<seq<Frame>>, ghost rows': seq<seq<Store.EventRow>>)
    requires agent.Valid() && handled < |inbox| && sock.Delivers() == delivers
    requires Reached(sock, db, sent0, events0, replies, rows, delivers, connected, unlimited)
    requires Accounted(mgr.sessionId, agent.llmAvailable, run, inbox[..handled], replies, rows, connected, unlimited)
    modifies sock`sent, agent`history, agent`historyLoaded, agent`chat, db`enabled, db`client, db`budget, db`events
    ensures agent.Valid() && sock.Delivers() == delivers
    ensures Reached(sock, db, sent0, events0, replies', rows', delivers, connected, unlimited)
    ensures Accounted(mgr.sessionId, agent.llmAvailable, run, inbox[..handled + 1], replies', rows', connected, unlimited)
  {
    var frames, written, _, _, _ := ReceiveOne(sock, mgr, agent, db, inbox[handled], run);
    Advance(mgr.sessionId, agent.llmAvailable, run, inbox, handled, replies, rows, frames, written, connected, unlimited);
    Associative(sent0, Chain(replies), frames);
    Associative(events0, Chain(rows), written);
    replies', rows' := replies + [frames], rows + [written];
  }

  /**
   * The `while True` receive loop: every frame is handled in turn until the
   * client disconnects. `replies[k]` are the frames sent for `inbox[k]` and
   * `rows[k]` the events stored for it.
   */
  method ReceiveLoop(sock: Socket, mgr: Sessions.SessionManager, agent: Agent.ConversationAgent, db: Store.Database,
                     inbox: seq<Incoming>, run: Agent.Runner)
    returns (handled: nat, ghost replies: seq<seq<Frame>>, ghost rows: seq<seq<Store.EventRow>>)
    requires agent.Valid()
    modifies sock`sent, agent`history, agent`historyLoaded, agent`chat, db`enabled, db`client, db`budget, db`events
    ensures handled == |inbox| == |replies| == |rows|
    ensures sock.Delivers() ==> sock.sent == old(sock.sent) + Chain(replies)
    ensures !sock.Delivers() ==> sock.sent == old(sock.sent)
    ensures db.events == old(db.events) + Chain(rows)
    ensures forall k :: 0 <= k < |inbox| && !Classify(inbox[k].data).Content? ==>
      replies[k] == Immediate(Classify(inbox[k].data)) && rows[k] == []
    ensures old(db.Attempt()).1.None? ==> db.events == old(db.events)
    ensures old(db.budget).None? || old(db.Attempt()).1.None? ==> replies == RepliesFor(agent.llmAvailable, run, inbox)
    ensures old(db.budget).None? && old(db.Attempt()).1.Some? ==> rows == WritesFor(mgr.sessionId, agent.llmAvailable, run, inbox)
  {
    handled, replies, rows := 0, [], [];
    ghost var connected := old(db.Attempt()).1.Some?;
    ghost var unlimited := old(db.budget).None?;
    ghost var delivers := sock.Delivers();
    while handled < |inbox|
      invariant agent.Valid() && sock.Delivers() == delivers && handled <= |inbox|
      invariant Reached(sock, db, old(sock.sent), old(db.events), replies, rows, delivers, connected, unlimited)
      invariant Accounted(mgr.sessionId, agent.llmAvailable, run, inbox[..handled], replies, rows, connected, unlimited)
    {
      replies, rows := ReceiveStep(sock, mgr, agent, db, inbox, handled, run, replies, rows,
                                   old(sock.sent), old(db.events), delivers, connected, unlimited);
      handled := handled + 1;
    }
    assert inbox[..handled] == inbox;
    AnsweredEach(replies, rows, inbox);
  }

  /**
   * The session table once the connection's session is set up: the stored
   * row reopened, or the started row added under the id the store assigned.
   */
  function Opened(rows: map<Uuid, Store.SessionRow>, stored: bool, sessionId: Uuid, storeId: Uuid, userId: string,
                  now: int, iso: int -> string): map<Uuid, Store.SessionRow> {
    if stored then Store.Updated(rows, sessionId, Sessions.ResumeUpdate())
    else rows[storeId := Sessions.StartedRow(storeId, userId, now, iso)]
  }

  /**
   * The session a connection works on: the stored one is resumed, or a new
   * one is started. `ready` tells whether that succeeded, and then the
   * manager logs under the path's id for a resumed session and under the id
   * the store assigned for a started one.
   */
  method ResumeOrStart(mgr: Sessions.SessionManager, db: Store.Database, stored: bool, storeId: Uuid, now: int,
                       parse: string -> Option<int>, iso: int -> string)
    returns (ready: bool)
    requires storeId !in db.sessions
    requires db.Attempt().1.Some? ==> (stored <==> mgr.sessionId in db.sessions)
    requires db.Attempt().1.None? ==> !stored
    modifies mgr`sessionId, mgr`startTime, mgr`isActive, db
    ensures db.events == old(db.events)
    ensures db.Attempt().1.Some? == old(db.Attempt()).1.Some?
    ensures old(db.budget).None? ==> db.budget.None?
    ensures old(db.budget).None? || old(db.Attempt()).1.None? ==> ready
    ensures ready ==> mgr.sessionId == if stored then old(mgr.sessionId) else storeId
    ensures old(db.Attempt()).1.Some? ==> (ready <==> Store.Lasts(old(db.budget), if stored then 2 else 1))
    ensures db.budget == if old(db.Attempt()).1.Some? then Store.Drain(old(db.budget), if stored then 2 else 1) else old(db.budget)
    ensures ready ==> && mgr.isActive
                      && mgr.startTime == Some(if stored then Sessions.ResumedStart(old(db.sessions)[old(mgr.sessionId)].startTime, now, parse)
                                               else now)
    ensures db.sessions == if old(db.Attempt()).1.Some? && Store.Lasts(old(db.budget), if stored then 2 else 1)
                           then Opened(old(db.sessions), stored, old(mgr.sessionId), storeId, mgr.userId, now, iso)
                           else old(db.sessions)
  {
    Store.ConnectIdempotent(db.State(), db.settings, db.accepts);
    if stored {
      var resumed := mgr.ResumeSession(db, now, parse);
      ready := resumed.Success?;
    } else {
      var started := mgr.StartSession(db, storeId, now, iso);
      ready := started.Success?;
    }
  }

  /** The conversation on a ready session: a fresh agent, and the receive loop. */
  method Serve(sock: Socket, mgr: Sessions.SessionManager, db: Store.Database, sessionId: Uuid, configured: bool,
               inbox: seq<Incoming>, run: Agent.Runner)
    returns (handled: nat, ghost replies: seq<seq<Frame>>, ghost rows: seq<seq<Store.EventRow>>)
    modifies sock`sent, db`enabled, db`client, db`budget, db`events
    ensures handled == |inbox| == |replies| == |rows|
    ensures sock.Delivers() ==> sock.sent == old(sock.sent) + Chain(replies)
    ensures !sock.Delivers() ==> sock.sent == old(sock.sent)
    ensures db.events == old(db.events) + Chain(rows)
    ensures forall k :: 0 <= k < |inbox| && !Classify(inbox[k].data).Content? ==>
      replies[k] == Immediate(Classify(inbox[k].data)) && rows[k] == []
    ensures old(db.budget).None? || old(db.Attempt()).1.None? ==> replies == RepliesFor(configured, run, inbox)
    ensures old(db.budget).None? && old(db.Attempt()).1.Some? ==> rows == WritesFor(mgr.sessionId, configured, run, inbox)
  {
    var agent := new Agent.ConversationAgent(sessionId, configured);
    handled, replies, rows := ReceiveLoop(sock, mgr, agent, db, inbox, run);
  }

  /**
   * The body of `websocket_session`'s `try` once the stored session has been
   * looked up (`stored` tells whether it was found) on a connected socket:
   * the session is resumed or started, and the frames of `inbox` are handled.
   */
  method Attend(sock: Socket, db: Store.Database,
                sessionId: Uuid, stored: bool, storeId: Uuid, configured: bool,
                run: Agent.Runner, inbox: seq<Incoming>, now: int,
                parse: string -> Option<int>, iso: int -> string)
    returns (handled: nat, ghost replies: seq<seq<Frame>>, ghost rows: seq<seq<Store.EventRow>>)
    requires storeId !in db.sessions
    requires db.Attempt().1.Some? ==> (stored <==> sessionId in db.sessions)
    requires db.Attempt().1.None? ==> !stored
    modifies sock`sent, db
    ensures handled == 0 || handled == |inbox|
    ensures |replies| == handled == |rows|
    ensures old(db.budget).None? || old(db.Attempt()).1.None? ==> handled == |inbox|
    ensures sock.Delivers() ==> sock.sent == old(sock.sent) + Chain(replies)
    ensures !sock.Delivers() ==> sock.sent == old(sock.sent)
    ensures db.events == old(db.events) + Chain(rows)
    ensures forall k :: 0 <= k < handled && !Classify(inbox[k].data).Content? ==>
      replies[k] == Immediate(Classify(inbox[k].data)) && rows[k] == []
    ensures old(db.budget).None? || old(db.Attempt()).1.None? ==> replies == RepliesFor(configured, run, inbox[..handled])
    ensures old(db.budget).None? && old(db.Attempt()).1.Some? ==>
      rows == WritesFor(if stored then sessionId else storeId, configured, run, inbox[..handled])
    ensures old(db.Attempt()).1.Some? && Store.Lasts(old(db.budget), if stored then 2 else 1) ==> handled == |inbox|
    ensures old(db.Attempt()).1.Some? && !Store.Lasts(old(db.budget), if stored then 2 else 1) ==> handled == 0
    ensures db.sessions == if old(db.Attempt()).1.Some? && Store.Lasts(old(db.budget), if stored then 2 else 1)
                           then Opened(old(db.sessions), stored, sessionId, storeId, "anonymous", now, iso)
                           else old(db.sessions)
  {
    handled, replies, rows := 0, [], [];
    var mgr := new Sessions.SessionManager(sessionId, "anonymous");
    var ready := ResumeOrStart(mgr, db, stored, storeId, now, parse, iso);
    if ready {
      handled, replies, rows := Serve(sock, mgr, db, sessionId, configured, inbox, run);
      assert inbox[..handled] == inbox;
    }
  }

  /**
   * The `try` and `finally` of `websocket_session`, once the stored session
   * has been looked up (`stored` tells whether it was found): on a connected
   * socket the session is resumed or started and the frames of `inbox` are
   * handled; the teardown runs in every case. `budget0` is the budget before
   * the lookup, which on a reached store was answered.
   */
  method Engage(sock: Socket, db: Store.Database, sched: Summary.Scheduler,
                sessionId: Uuid, stored: bool, storeId: Uuid, configured: bool,
                run: Agent.Runner, inbox: seq<Incoming>, now: int,
                parse: string -> Option<int>, iso: int -> string, ghost budget0: Option<nat>)
    returns (handled: nat, ghost replies: seq<seq<Frame>>, ghost rows: seq<seq<Store.EventRow>>)
    requires storeId !in db.sessions
    requires db.Attempt().1.Some? ==> (stored <==> sessionId in db.sessions)
    requires db.Attempt().1.None? ==> !stored
    requires db.Attempt().1.Some? ==> db.budget == Store.Spend(budget0) && Store.Lasts(budget0, 1)
    requires db.Attempt().1.None? ==> db.budget == budget0
    modifies sock, db, sched
    ensures handled == 0 || handled == |inbox|
    ensures |replies| == handled == |rows|
    ensures (budget0.None? || old(db.Attempt()).1.None?) && old(sock.clientState) == Connected ==> handled == |inbox|
    ensures sock.sent == old(sock.sent) + (if old(sock.Delivers()) then Chain(replies) else [])
    ensures db.events == old(db.events) + Chain(rows)
    ensures forall k :: 0 <= k < handled && !Classify(inbox[k].data).Content? ==>
      replies[k] == Immediate(Classify(inbox[k].data)) && rows[k] == []
    ensures budget0.None? || old(db.Attempt()).1.None? ==> replies == RepliesFor(configured, run, inbox[..handled])
    ensures budget0.None? && old(db.Attempt()).1.Some? ==>
      rows == WritesFor(if stored then sessionId else storeId, configured, run, inbox[..handled])
    ensures handled > 0 ==> old(sock.clientState) == Connected
    ensures old(db.Attempt()).1.Some? && old(sock.clientState) == Connected && Store.Lasts(budget0, if stored then 3 else 2) ==>
      handled == |inbox|
    ensures old(db.Attempt()).1.Some? && !Store.Lasts(budget0, if stored then 3 else 2) ==> handled == 0
    ensures db.sessions == if old(db.Attempt()).1.Some? && old(sock.clientState) == Connected && Store.Lasts(budget0, if stored then 3 else 2)
                           then Opened(old(db.sessions), stored, sessionId, storeId, "anonymous", now, iso)
                           else old(db.sessions)
    ensures sched.pending == old(sched.pending) + [(sessionId, now)]
    ensures sock.clientState == (if old(sock.clientState) == Connected then Disconnected else old(sock.clientState))
  {
    handled, replies, rows := 0, [], [];
    if sock.clientState != Connected {
      Teardown(sock, sched, sessionId, now);
      return;
    }
    if db.Attempt().1.Some? {
      Store.SpendLasts(budget0, if stored then 2 else 1);
    }
    assert unchanged(sock);
    handled, replies, rows := Attend(sock, db, sessionId, stored, storeId, configured, run, inbox, now, parse, iso);
    assert unchanged(sock`clientState, sock`applicationState, sock`peerGone);
    ghost var delivered := sock.sent;
    Teardown(sock, sched, sessionId, now);
    assert sock.sent == delivered;
  }

  /**
   * `websocket_session`. The session id is the one in the path, or a generated
   * one when the path does not parse (`requested` is `None`). The stored
   * session is looked up before the `try` (`stored` tells whether it was
   * found): when that lookup raises, nothing else happens. Otherwise the
   * session is resumed or started (the store assigns `storeId` to a started
   * one), every frame of `inbox` is handled in turn until the client
   * disconnects, and the teardown runs whatever happened. `handled` counts
   * the frames handled; `replies` and `rows` are, frame by frame, what the
   * receive loop sent and stored. The events of a resumed session are logged
   * under its own id, those of a started one under the id the store assigned.
   */
  method WebsocketSession(sock: Socket, db: Store.Database, sched: Summary.Scheduler,
                          requested: Option<Uuid>, generated: Uuid, storeId: Uuid, configured: bool,
                          run: Agent.Runner, inbox: seq<Incoming>, now: int,
                          parse: string -> Option<int>, iso: int -> string)
    returns (sessionId: Uuid, ghost stored: bool, handled: nat,
             ghost replies: seq<seq<Frame>>, ghost rows: seq<seq<Store.EventRow>>)
    requires storeId !in db.sessions
    modifies sock, db, sched
    ensures sessionId == (if requested.Some? then requested.value else generated)
    ensures stored <==> old(db.Attempt()).1.Some? && old(db.Up()) && sessionId in old(db.sessions)
    ensures handled == 0 || handled == |inbox|
    ensures |replies| == handled == |rows|
    ensures (old(db.budget).None? || old(db.Attempt()).1.None?) && old(sock.clientState) == Connected ==> handled == |inbox|
    ensures sock.sent == old(sock.sent) + (if old(sock.Delivers()) then Chain(replies) else [])
    ensures db.events == old(db.events) + Chain(rows)
    ensures forall k :: 0 <= k < handled && !Classify(inbox[k].data).Content? ==>
      replies[k] == Immediate(Classify(inbox[k].data)) && rows[k] == []
    ensures old(db.budget).None? || old(db.Attempt()).1.None? ==> replies == RepliesFor(configured, run, inbox[..handled])
    ensures old(db.budget).None? && old(db.Attempt()).1.Some? ==>
      var logId := if sessionId in old(db.sessions) then sessionId else storeId;
      rows == WritesFor(logId, configured, run, inbox[..handled])
    ensures handled > 0 ==> old(sock.clientState) == Connected
    ensures old(db.Attempt()).1.Some? && old(sock.clientState) == Connected && Store.Lasts(old(db.budget), if stored then 3 else 2) ==>
      handled == |inbox|
    ensures old(db.Attempt()).1.Some? && !Store.Lasts(old(db.budget), if stored then 3 else 2) ==> handled == 0
    ensures db.sessions == if old(db.Attempt()).1.Some? && old(sock.clientState) == Connected
                              && Store.Lasts(old(db.budget), if stored then 3 else 2)
                           then Opened(old(db.sessions), stored, sessionId, storeId, "anonymous", now, iso)
                           else old(db.sessions)
    ensures old(db.Attempt()).1.Some? && !old(db.Up()) ==>
      && handled == 0 && sched.pending == old(sched.pending) && sock.sent == old(sock.sent)
      && sock.clientState == old(sock.clientState) && sock.applicationState == old(sock.applicationState)
    ensures !(old(db.Attempt()).1.Some? && !old(db.Up())) ==>
      && sched.pending == old(sched.pending) + [(sessionId, now)]
      && sock.clientState == (if old(sock.clientState) == Connected then Disconnected else old(sock.clientState))
  {
    sessionId := if requested.Some? then requested.value else generated;
    stored, handled, replies, rows := false, 0, [], [];
    var existing := db.GetSession(sessionId);
    if existing.Failure? {
      return;
    }
    stored := existing.value.Some?;
    Store.ConnectIdempotent(old(db.State()), db.settings, db.accepts);
    handled, replies, rows := Engage(sock, db, sched, sessionId, existing.value.Some?, storeId, configured,
                                     run, inbox, now, parse, iso, old(db.budget));
  }

}
