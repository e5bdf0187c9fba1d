/**
 * The shared vocabulary of the chat server (app/models.py): the three
 * enumerations with their wire strings, the JSON-shaped values that travel in
 * event metadata and tool arguments, and the record shapes with their defaults.
 */
module Models {
  import opened Wrappers

  /** Session and event identifiers, in their textual UUID form. */
  type Uuid = string

  /** A JSON value: what `Any` holds in metadata, tool arguments and tool results. */
  datatype Json =
    | JNull
    | JBool(b: bool)
    | JNumber(n: int)
    | JString(s: string)
    | JList(items: seq<Json>)
    | JObject(fields: map<string, Json>)

  /** A string-keyed mapping (`dict[str, Any]`). */
  type Dict = map<string, Json>

  /** Python truthiness of a JSON value. */
  predicate Truthy(j: Json) {
    match j
    case JNull => false
    case JBool(b) => b
    case JNumber(n) => n != 0
    case JString(s) => s != ""
    case JList(items) => items != []
    case JObject(fields) => fields != map[]
  }

  /** `type(x).__name__` of the Python value a JSON value decodes to. */
  function TypeName(j: Json): string {
    match j
    case JNull => "NoneType"
    case JBool(_) => "bool"
    case JNumber(_) => "int"
    case JString(_) => "str"
    case JList(_) => "list"
    case JObject(_) => "dict"
  }

  // ---------------------------------------------------------------- enumerations

  /** `SessionStatus`: the lifecycle state stored with a session. */
  datatype SessionStatus = Active | Completed | Error {
    function Wire(): string {
      match this
      case Active => "active"
      case Completed => "completed"
      case Error => "error"
    }
  }

  /** `SessionStatus(s)`: the variant whose wire string is `s`, if any. */
  function ParseSessionStatus(s: string): (r: Option<SessionStatus>)
    ensures r.Some? ==> r.value.Wire() == s
    ensures r.None? <==> forall x: SessionStatus :: x.Wire() != s
  {
    if s == "active" then Some(Active)
    else if s == "completed" then Some(Completed)
    else if s == "error" then Some(Error)
    else None
  }

  /** Decoding the wire string of a status gives that status back. */
  lemma SessionStatusRoundTrip(x: SessionStatus)
    ensures ParseSessionStatus(x.Wire()) == Some(x)
  {
  }

  /** `EventType`: the kind of a persisted audit event. */
  datatype EventType = UserMessage | AiResponse | ToolCall | ToolResult | System | ErrorEvent {
    function Wire(): string {
      match this
      case UserMessage => "user_message"
      case AiResponse => "ai_response"
      case ToolCall => "tool_call"
      case ToolResult => "tool_result"
      case System => "system"
      case ErrorEvent => "error"
    }
  }

  function ParseEventType(s: string): (r: Option<EventType>)
    ensures r.Some? ==> r.value.Wire() == s
    ensures r.None? <==> forall x: EventType :: x.Wire() != s
  {
    if s == "user_message" then Some(UserMessage)
    else if s == "ai_response" then Some(AiResponse)
    else if s == "tool_call" then Some(ToolCall)
    else if s == "tool_result" then Some(ToolResult)
    else if s == "system" then Some(System)
    else if s == "error" then Some(ErrorEvent)
    else None
  }

  lemma EventTypeRoundTrip(x: EventType)
    ensures ParseEventType(x.Wire()) == Some(x)
  {
  }

  /** `WSMessageType`: the `type` discriminator of WebSocket frames. */
  datatype WSMessageType =
    | UserInput | AiToken | AiComplete | ToolCallMsg | ToolResultMsg | ErrorMsg | SystemMsg | Ping | Pong
  {
    function Wire(): string {
      match this
      case UserInput => "user_input"
      case AiToken => "ai_token"
      case AiComplete => "ai_complete"
      case ToolCallMsg => "tool_call"
      case ToolResultMsg => "tool_result"
      case ErrorMsg => "error"
      case SystemMsg => "system"
      case Ping => "ping"
      case Pong => "pong"
    }
  }

  function ParseWSMessageType(s: string): (r: Option<WSMessageType>)
    ensures r.Some? ==> r.value.Wire() == s
    ensures r.None? <==> forall x: WSMessageType :: x.Wire() != s
  {
    if s == "user_input" then Some(UserInput)
    else if s == "ai_token" then Some(AiToken)
    else if s == "ai_complete" then Some(AiComplete)
    else if s == "tool_call" then Some(ToolCallMsg)
    else if s == "tool_result" then Some(ToolResultMsg)
    else if s == "error" then Some(ErrorMsg)
    else if s == "system" then Some(SystemMsg)
    else if s == "ping" then Some(Ping)
    else if s == "pong" then Some(Pong)
    else None
  }

  lemma WSMessageTypeRoundTrip(x: WSMessageType)
    ensures ParseWSMessageType(x.Wire()) == Some(x)
  {
  }

  /** The wire strings of each enumeration are pairwise distinct. */
  lemma WireStringsDistinct()
    ensures forall a: SessionStatus, b: SessionStatus :: a.Wire() == b.Wire() ==> a == b
    ensures forall a: EventType, b: EventType :: a.Wire() == b.Wire() ==> a == b
    ensures forall a: WSMessageType, b: WSMessageType :: a.Wire() == b.Wire() ==> a == b
  {
    forall a: SessionStatus, b: SessionStatus | a.Wire() == b.Wire() ensures a == b {
      SessionStatusRoundTrip(a);
      SessionStatusRoundTrip(b);
    }
    forall a: EventType, b: EventType | a.Wire() == b.Wire() ensures a == b {
      EventTypeRoundTrip(a);
      EventTypeRoundTrip(b);
    }
    forall a: WSMessageType, b: WSMessageType | a.Wire() == b.Wire() ensures a == b {
      WSMessageTypeRoundTrip(a);
      WSMessageTypeRoundTrip(b);
    }
  }

  // ---------------------------------------------------------------- records

  /** `Session`: times are whole seconds. */
  datatype Session = Session(
    id: Uuid,
    userId: string,
    startTime: int,
    endTime: Option<int>,
    durationSeconds: Option<int>,
    summary: Option<string>,
    status: SessionStatus,
    createdAt: int,
    updatedAt: int)

  /** End time and duration are both set or both absent; a set duration is end minus start. */
  predicate WellTimed(s: Session) {
    && s.endTime.Some? == s.durationSeconds.Some?
    && (s.endTime.Some? ==> s.durationSeconds.value == s.endTime.value - s.startTime)
  }

  /** A `Session` built with only its required fields takes the declared defaults. */
  function NewSession(id: Uuid, userId: string, startTime: int, createdAt: int, updatedAt: int): (s: Session)
    ensures s.status == Active && s.endTime.None? && s.durationSeconds.None? && s.summary.None?
    ensures s.id == id && s.userId == userId && s.startTime == startTime
    ensures WellTimed(s)
  {
    Session(id, userId, startTime, None, None, None, Active, createdAt, updatedAt)
  }

  /** `EventCreate`; `metadata` is `None` only when a caller passes `None` explicitly. */
  datatype EventCreate = EventCreate(sessionId: Uuid, eventType: EventType, content: string, metadata: Option<Dict>)

  /** An `EventCreate` whose metadata is omitted gets a fresh empty mapping. */
  function NewEventCreate(sessionId: Uuid, eventType: EventType, content: string): (e: EventCreate)
    ensures e.metadata == Some(map[])
    ensures e.sessionId == sessionId && e.eventType == eventType && e.content == content
  {
    EventCreate(sessionId, eventType, content, Some(map[]))
  }

  /** `WSMessage`: content defaults to "", metadata to None, the timestamp to the current time. */
  datatype WSMessage = WSMessage(kind: WSMessageType, content: string, metadata: Option<Dict>, timestamp: int)

  function NewWSMessage(kind: WSMessageType, now: int): (m: WSMessage)
    ensures m.kind == kind && m.content == "" && m.metadata.None? && m.timestamp == now
  {
    WSMessage(kind, "", None, now)
  }

  /** The outbound frames the server sends (`WSAIToken`, `WSAIComplete`, `WSToolCall`, `WSToolResult`, `WSError`, and pong). */
  datatype Frame =
    | PongFrame
    | AiTokenFrame(token: string)
    | AiCompleteFrame(content: string)
    | ToolCallFrame(toolName: string, toolInput: Dict)
    | ToolResultFrame(toolName: string, result: Json)
    | ErrorFrame(message: string)
  {
    function Kind(): WSMessageType {
      match this
      case PongFrame => Pong
      case AiTokenFrame(_) => AiToken
      case AiCompleteFrame(_) => AiComplete
      case ToolCallFrame(_, _) => ToolCallMsg
      case ToolResultFrame(_, _) => ToolResultMsg
      case ErrorFrame(_) => ErrorMsg
    }

    /** The JSON object sent on the wire: the `type` key and the frame's own fields. */
    function ToJson(): (d: Dict)
      ensures "type" in d && d["type"] == JString(Kind().Wire())
    {
      match this
      case PongFrame => map["type" := JString("pong")]
      case AiTokenFrame(t) => map["type" := JString("ai_token"), "token" := JString(t)]
      case AiCompleteFrame(c) => map["type" := JString("ai_complete"), "content" := JString(c)]
      case ToolCallFrame(n, i) => map["type" := JString("tool_call"), "tool_name" := JString(n), "tool_input" := JObject(i)]
      case ToolResultFrame(n, r) => map["type" := JString("tool_result"), "tool_name" := JString(n), "result" := r]
      case ErrorFrame(m) => map["type" := JString("error"), "message" := JString(m)]
    }
  }

  /** Distinct frames are distinct JSON objects on the wire. */
  lemma {:induction false} FrameEncodingInjective(a: Frame, b: Frame)
    requires a.ToJson() == b.ToJson()
    ensures a == b
  {
    WireStringsDistinct();
    var d := a.ToJson();
    assert a.Kind() == b.Kind();
    match a
    case PongFrame =>
    case AiTokenFrame(t) => assert d["token"] == JString(t) == JString(b.token);
    case AiCompleteFrame(c) => assert d["content"] == JString(c) == JString(b.content);
    case ToolCallFrame(n, i) =>
      assert d["tool_name"] == JString(n) == JString(b.toolName);
      assert d["tool_input"] == JObject(i) == JObject(b.toolInput);
    case ToolResultFrame(n, r) =>
      assert d["tool_name"] == JString(n) == JString(b.toolName);
      assert d["result"] == r == b.result;
    case ErrorFrame(m) => assert d["message"] == JString(m) == JString(b.message);
  }

  /** `CreateSessionRequest`. */
  datatype CreateSessionRequest = CreateSessionRequest(userId: string)

  /** Validating a request body: `user_id` defaults to "anonymous" and must be a string when given. */
  function ParseCreateSessionRequest(body: Dict): (r: Option<CreateSessionRequest>)
    ensures "user_id" !in body ==> r == Some(CreateSessionRequest("anonymous"))
    ensures "user_id" in body ==> (r.Some? <==> body["user_id"].JString?)
    ensures "user_id" in body && r.Some? ==> r.value.userId == body["user_id"].s
  {
    if "user_id" !in body then Some(CreateSessionRequest("anonymous"))
    else match body["user_id"]
      case JString(u) => Some(CreateSessionRequest(u))
      case _ => None
  }
}
