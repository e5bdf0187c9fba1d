/**
 * The persistence layer (database.py), with the remote Supabase project
 * replaced by two in-memory tables: `sessions`, keyed by id, and `events`, in
 * insertion order. The class `Database` also holds the cached client and the
 * sticky `enabled` flag of the source's class-level state.
 *
 * Remote failures are modelled by `budget`: `None` means the remote store
 * answers every call; `Some(n)` means it answers `n` more calls and then
 * raises on every later one.
 */
module Store {
  import opened Wrappers
  import opened Models
  import Strings

  /** The configuration the store reads (`Settings.supabase_url`, `supabase_key`, `gemini_api_key`). */
  datatype Settings = Settings(supabaseUrl: string, supabaseKey: string, geminiApiKey: string)

  /** A created Supabase client. */
  datatype Client = Client(url: string, key: string)

  /** A row of the `sessions` table. `startTime` is kept as the raw stored value. */
  datatype SessionRow = SessionRow(
    id: Uuid,
    userId: string,
    status: SessionStatus,
    startTime: Json,
    endTime: Option<int>,
    durationSeconds: Option<int>,
    summary: Option<string>,
    name: Option<string>)

  /** A row of the `events` table; `timestamp` is assigned by the store on insert. */
  datatype EventRow = EventRow(sessionId: Uuid, eventType: EventType, content: string, metadata: Dict, timestamp: int)

  /** One column of an update: left alone, or written. */
  datatype Patch<T> = Unchanged | Put(value: T)

  /** The `updates` dictionary of `update_session`: which columns it writes. */
  datatype SessionUpdate = SessionUpdate(
    status: Patch<SessionStatus>,
    endTime: Patch<Option<int>>,
    durationSeconds: Patch<Option<int>>,
    summary: Patch<string>,
    name: Patch<string>)

  function Patched<T>(current: T, p: Patch<T>): T {
    match p
    case Unchanged => current
    case Put(v) => v
  }

  function PatchedText(current: Option<string>, p: Patch<string>): Option<string> {
    match p
    case Unchanged => current
    case Put(v) => Some(v)
  }

  /** The row after an update: written columns take the new values, the rest are unchanged. */
  function Apply(row: SessionRow, u: SessionUpdate): SessionRow {
    row.(status := Patched(row.status, u.status),
         endTime := Patched(row.endTime, u.endTime),
         durationSeconds := Patched(row.durationSeconds, u.durationSeconds),
         summary := PatchedText(row.summary, u.summary),
         name := PatchedText(row.name, u.name))
  }

  /** The session table once `update_session(id, u)` is answered: the row with that id, if any, is patched. */
  function Updated(rows: map<Uuid, SessionRow>, id: Uuid, u: SessionUpdate): map<Uuid, SessionRow> {
    if id in rows then rows[id := Apply(rows[id], u)] else rows
  }

  /**
   * The update `finalize_session` sends: summary, end time, duration and the
   * completed status, and no other column.
   */
  function FinalizeUpdate(summary: string, endTime: int, durationSeconds: int): (u: SessionUpdate)
    ensures forall row: SessionRow :: var r := Apply(row, u);
      && r.summary == Some(summary) && r.endTime == Some(endTime)
      && r.durationSeconds == Some(durationSeconds) && r.status == Completed
      && r.id == row.id && r.userId == row.userId && r.startTime == row.startTime && r.name == row.name
  {
    SessionUpdate(Put(Completed), Put(Some(endTime)), Put(Some(durationSeconds)), Put(summary), Unchanged)
  }

  // ---------------------------------------------------------------- event constructors (log_*)

  /** `log_user_message`: metadata omitted. */
  function UserMessageRecord(sessionId: Uuid, content: string): EventCreate {
    NewEventCreate(sessionId, UserMessage, content)
  }

  /** `log_ai_response`. */
  function AiResponseRecord(sessionId: Uuid, content: string, metadata: Option<Dict>): EventCreate {
    EventCreate(sessionId, AiResponse, content, metadata)
  }

  /** `log_tool_call`: the content names the tool; metadata carries the name and the input. */
  function ToolCallRecord(sessionId: Uuid, toolName: string, toolInput: Dict): (e: EventCreate)
    ensures e.eventType == ToolCall && e.content == "Called tool: " + toolName
    ensures e.metadata == Some(map["tool_name" := JString(toolName), "input" := JObject(toolInput)])
  {
    EventCreate(sessionId, ToolCall, "Called tool: " + toolName,
                Some(map["tool_name" := JString(toolName), "input" := JObject(toolInput)]))
  }

  /** `log_tool_result`: the content names the tool; metadata carries the name and the result. */
  function ToolResultRecord(sessionId: Uuid, toolName: string, result: Json): (e: EventCreate)
    ensures e.eventType == ToolResult && e.content == "Tool result from: " + toolName
    ensures e.metadata == Some(map["tool_name" := JString(toolName), "result" := result])
  {
    EventCreate(sessionId, ToolResult, "Tool result from: " + toolName,
                Some(map["tool_name" := JString(toolName), "result" := result]))
  }

  /** `log_system_event`. */
  function SystemRecord(sessionId: Uuid, content: string, metadata: Option<Dict>): EventCreate {
    EventCreate(sessionId, System, content, metadata)
  }

  /** `log_error`. */
  function ErrorRecord(sessionId: Uuid, message: string, metadata: Option<Dict>): EventCreate {
    EventCreate(sessionId, ErrorEvent, message, metadata)
  }

  /** The row `create_event` stores (or synthesizes): absent metadata becomes an empty mapping. */
  function Stored(e: EventCreate, now: int): (r: EventRow)
    ensures r.sessionId == e.sessionId && r.eventType == e.eventType && r.content == e.content
    ensures r.metadata == (if e.metadata.Some? then e.metadata.value else map[])
    ensures r.timestamp == now
  {
    EventRow(e.sessionId, e.eventType, e.content, e.metadata.GetOr(map[]), now)
  }

  // ---------------------------------------------------------------- queries

  const AllEventTypes: set<EventType> := {UserMessage, AiResponse, ToolCall, ToolResult, System, ErrorEvent}

  /** The events of session `sid` whose type is in `types`, in table order. */
  function Keep(events: seq<EventRow>, sid: Uuid, types: set<EventType>): (r: seq<EventRow>)
    ensures |r| <= |events|
    ensures forall i :: 0 <= i < |r| ==> r[i].sessionId == sid && r[i].eventType in types
  {
    if events == [] then []
    else
      var rest := Keep(events[1..], sid, types);
      if events[0].sessionId == sid && events[0].eventType in types then [events[0]] + rest else rest
  }

  /** Every event of `sid` with a type in `types` is kept, as often as it occurs. */
  lemma {:induction false} KeepMultiset(events: seq<EventRow>, sid: Uuid, types: set<EventType>, e: EventRow)
    ensures multiset(Keep(events, sid, types))[e]
            == if e.sessionId == sid && e.eventType in types then multiset(events)[e] else 0
  {
    if events != [] {
      KeepMultiset(events[1..], sid, types, e);
      assert events == [events[0]] + events[1..];
      assert multiset(events) == multiset{events[0]} + multiset(events[1..]);
      var rest := Keep(events[1..], sid, types);
      if events[0].sessionId == sid && events[0].eventType in types {
        assert multiset([events[0]] + rest) == multiset{events[0]} + multiset(rest);
      }
    }
  }

  /** The number of user messages of session `sid`. */
  function UserMessageCount(events: seq<EventRow>, sid: Uuid): nat {
    |Keep(events, sid, {UserMessage})|
  }

  /** Timestamps ascend along `s` (ties allowed). */
  predicate Chronological(s: seq<EventRow>) {
    forall i, j :: 0 <= i < j < |s| ==> s[i].timestamp <= s[j].timestamp
  }

  /** Places `x` before the first element not earlier than it. */
  function Insert(x: EventRow, sorted: seq<EventRow>): (r: seq<EventRow>)
    ensures multiset(r) == multiset(sorted) + multiset{x}
    ensures |r| == |sorted| + 1
  {
    if sorted == [] || x.timestamp <= sorted[0].timestamp then [x] + sorted
    else
      assert sorted == [sorted[0]] + sorted[1..];
      [sorted[0]] + Insert(x, sorted[1..])
  }

  /** No element of `s` is earlier than `t`. */
  predicate NotBefore(s: seq<EventRow>, t: int) {
    forall k :: 0 <= k < |s| ==> t <= s[k].timestamp
  }

  /** A chronological sequence extended in front by an element not later than any of it. */
  lemma ChronologicalCons(a: EventRow, s: seq<EventRow>)
    requires Chronological(s) && NotBefore(s, a.timestamp)
    ensures Chronological([a] + s)
  {
    var r := [a] + s;
    forall i, j | 0 <= i < j < |r| ensures r[i].timestamp <= r[j].timestamp {
      if i > 0 {
        assert r[i] == s[i - 1] && r[j] == s[j - 1];
      } else {
        assert r[j] == s[j - 1];
      }
    }
  }

  lemma {:induction false} InsertNotBefore(x: EventRow, sorted: seq<EventRow>, t: int)
    requires t <= x.timestamp && NotBefore(sorted, t)
    ensures NotBefore(Insert(x, sorted), t)
  {
    if sorted != [] && x.timestamp > sorted[0].timestamp {
      InsertNotBefore(x, sorted[1..], t);
    }
  }

  lemma {:induction false} InsertChronological(x: EventRow, sorted: seq<EventRow>)
    requires Chronological(sorted)
    ensures Chronological(Insert(x, sorted))
  {
    if sorted == [] || x.timestamp <= sorted[0].timestamp {
      ChronologicalCons(x, sorted);
    } else {
      InsertChronological(x, sorted[1..]);
      InsertNotBefore(x, sorted[1..], sorted[0].timestamp);
      ChronologicalCons(sorted[0], Insert(x, sorted[1..]));
    }
  }

  /** Orders by timestamp, keeping table order among equal timestamps (`order("timestamp")`). */
  function SortByTime(s: seq<EventRow>): (r: seq<EventRow>)
    ensures multiset(r) == multiset(s)
    ensures |r| == |s|
  {
    if s == [] then []
    else
      assert s == [s[0]] + s[1..];
      Insert(s[0], SortByTime(s[1..]))
  }

  lemma {:induction false} SortByTimeChronological(s: seq<EventRow>)
    ensures Chronological(SortByTime(s))
  {
    if s != [] {
      SortByTimeChronological(s[1..]);
      InsertChronological(s[0], SortByTime(s[1..]));
    }
  }

  /** Sorting an already chronological sequence leaves it unchanged (insertion order breaks ties). */
  lemma {:induction false} SortByTimeStable(s: seq<EventRow>)
    requires Chronological(s)
    ensures SortByTime(s) == s
  {
    if s != [] {
      SortByTimeStable(s[1..]);
      assert SortByTime(s[1..]) == s[1..];
      assert s == [s[0]] + s[1..];
    }
  }

  /** A subsequence of a chronological sequence is chronological. */
  lemma {:induction false} KeepNotBefore(events: seq<EventRow>, sid: Uuid, types: set<EventType>, t: int)
    requires NotBefore(events, t)
    ensures NotBefore(Keep(events, sid, types), t)
  {
    if events != [] {
      KeepNotBefore(events[1..], sid, types, t);
    }
  }

  lemma {:induction false} KeepChronological(events: seq<EventRow>, sid: Uuid, types: set<EventType>)
    requires Chronological(events)
    ensures Chronological(Keep(events, sid, types))
  {
    if events != [] {
      KeepChronological(events[1..], sid, types);
      if events[0].sessionId == sid && events[0].eventType in types {
        KeepNotBefore(events[1..], sid, types, events[0].timestamp);
        ChronologicalCons(events[0], Keep(events[1..], sid, types));
      }
    }
  }

  /** The type set a `get_session_events` call filters on: none or an empty list means every type. */
  function TypeFilter(eventTypes: Option<seq<EventType>>): (r: set<EventType>)
    ensures forall t :: t in r <==> eventTypes.None? || eventTypes.value == [] || t in eventTypes.value
  {
    EveryEventType();
    if eventTypes.Some? && eventTypes.value != [] then set t | t in eventTypes.value else AllEventTypes
  }

  lemma EveryEventType()
    ensures forall t: EventType :: t in AllEventTypes
  {
    forall t: EventType ensures t in AllEventTypes {
      match t
      case UserMessage =>
      case AiResponse =>
      case ToolCall =>
      case ToolResult =>
      case System =>
      case ErrorEvent =>
    }
  }

  /** What `get_session_events` returns when it reaches the store. */
  function SessionEvents(events: seq<EventRow>, sid: Uuid, eventTypes: Option<seq<EventType>>): seq<EventRow> {
    SortByTime(Keep(events, sid, TypeFilter(eventTypes)))
  }

  /** The session's events of the requested types only, ascending by timestamp. */
  lemma SessionEventsSelected(events: seq<EventRow>, sid: Uuid, eventTypes: Option<seq<EventType>>)
    ensures var h := SessionEvents(events, sid, eventTypes);
      && Chronological(h)
      && forall i :: 0 <= i < |h| ==> h[i].sessionId == sid && h[i].eventType in TypeFilter(eventTypes)
  {
    var kept := Keep(events, sid, TypeFilter(eventTypes));
    SortByTimeChronological(kept);
    var h := SessionEvents(events, sid, eventTypes);
    forall i | 0 <= i < |h| ensures h[i].sessionId == sid && h[i].eventType in TypeFilter(eventTypes) {
      assert h[i] in multiset(kept);
    }
  }

  /** Every stored event of the session with a requested type is returned, as often as it is stored. */
  lemma SessionEventsComplete(events: seq<EventRow>, sid: Uuid, eventTypes: Option<seq<EventType>>, e: EventRow)
    ensures multiset(SessionEvents(events, sid, eventTypes))[e]
            == if e.sessionId == sid && e.eventType in TypeFilter(eventTypes) then multiset(events)[e] else 0
  {
    KeepMultiset(events, sid, TypeFilter(eventTypes), e);
  }

  /** When the table is in timestamp order the result is the table order of the selected events. */
  lemma SessionEventsTableOrder(events: seq<EventRow>, sid: Uuid, eventTypes: Option<seq<EventType>>)
    requires Chronological(events)
    ensures SessionEvents(events, sid, eventTypes) == Keep(events, sid, TypeFilter(eventTypes))
  {
    KeepChronological(events, sid, TypeFilter(eventTypes));
    SortByTimeStable(Keep(events, sid, TypeFilter(eventTypes)));
  }

  /** What `get_conversation_history` returns when it reaches the store. */
  function ConversationEvents(events: seq<EventRow>, sid: Uuid): (r: seq<EventRow>)
    ensures r == SortByTime(Keep(events, sid, {UserMessage, AiResponse}))
  {
    assert TypeFilter(Some([UserMessage, AiResponse])) == {UserMessage, AiResponse};
    SessionEvents(events, sid, Some([UserMessage, AiResponse]))
  }

  /** The events outside the sessions `ids`, in table order. */
  function Without(events: seq<EventRow>, ids: set<Uuid>): (r: seq<EventRow>)
    ensures forall i :: 0 <= i < |r| ==> r[i].sessionId !in ids
  {
    if events == [] then []
    else
      var rest := Without(events[1..], ids);
      if events[0].sessionId in ids then rest else [events[0]] + rest
  }

  /** Removing some sessions' events leaves the others' untouched and theirs empty. */
  lemma {:induction false} KeepWithout(events: seq<EventRow>, ids: set<Uuid>, sid: Uuid, types: set<EventType>)
    ensures Keep(Without(events, ids), sid, types) == if sid in ids then [] else Keep(events, sid, types)
  {
    if events != [] {
      KeepWithout(events[1..], ids, sid, types);
    }
  }

  /** Removing two groups of sessions one after the other removes their union. */
  lemma {:induction false} WithoutTwice(events: seq<EventRow>, first: set<Uuid>, second: set<Uuid>)
    ensures Without(Without(events, first), second) == Without(events, first + second)
  {
    if events != [] {
      WithoutTwice(events[1..], first, second);
    }
  }

  // ---------------------------------------------------------------- client state

  datatype ClientState = ClientState(enabled: bool, client: Option<Client>)

  predicate StartsWith(s: string, prefix: string) {
    |prefix| <= |s| && s[..|prefix|] == prefix
  }

  /**
   * `Database.get_client`: the state afterwards and the client returned.
   * `accepts` says whether `create_client` succeeds with these settings.
   */
  function Connect(st: ClientState, settings: Settings, accepts: bool): (r: (ClientState, Option<Client>))
    ensures !st.enabled ==> r == (st, None)
    ensures st.enabled && st.client.Some? ==> r == (st, st.client)
    ensures r.1.None? <==> !r.0.enabled
    ensures st.enabled ==> r.1 == r.0.client
    ensures st.enabled && st.client.None? ==>
              (r.1.None? <==> (settings.supabaseUrl == "" || settings.supabaseKey == ""
                               || !StartsWith(settings.supabaseUrl, "http") || !accepts))
  {
    if !st.enabled then (st, None)
    else if st.client.Some? then (st, st.client)
    else if settings.supabaseUrl == "" || settings.supabaseKey == "" then (ClientState(false, None), None)
    else if !StartsWith(settings.supabaseUrl, "http") then (ClientState(false, None), None)
    else if !accepts then (ClientState(false, None), None)
    else
      var c := Client(settings.supabaseUrl, settings.supabaseKey);
      (ClientState(true, Some(c)), Some(c))
  }

  /** Asking for the client a second time changes nothing and returns the same answer. */
  lemma ConnectIdempotent(st: ClientState, settings: Settings, accepts: bool)
    ensures var (st', c) := Connect(st, settings, accepts);
            Connect(st', settings, accepts) == (st', c)
  {
  }

  /** What is left of the remote budget after one call. */
  function Spend(budget: Option<nat>): Option<nat> {
    match budget
    case None => None
    case Some(n) => if n == 0 then Some(0) else Some(n - 1)
  }

  /** What is left of the remote budget after `calls` calls. */
  function Drain(budget: Option<nat>, calls: nat): Option<nat> {
    match budget
    case None => None
    case Some(n) => Some(if n >= calls then n - calls else 0)
  }

  /** Whether a store with this budget answers `calls` more calls. */
  predicate Lasts(budget: Option<nat>, calls: nat) {
    budget.None? || budget.value >= calls
  }

  /** A spent call is one call fewer that the store still answers. */
  lemma SpendLasts(budget: Option<nat>, calls: nat)
    requires calls > 0
    ensures Lasts(Spend(budget), calls) == Lasts(budget, calls + 1)
  {
  }

  /**
   * One more call after `calls` answered ones: it spends the next unit of the
   * budget, and it is answered exactly when that budget is not exhausted.
   */
  lemma DrainOne(budget: Option<nat>, calls: nat)
    requires Lasts(budget, calls)
    ensures Spend(Drain(budget, calls)) == Drain(budget, calls + 1)
    ensures Lasts(budget, calls + 1) <==> Drain(budget, calls) != Some(0)
    ensures Drain(budget, calls) == Some(0) ==> budget == Some(calls)
  {
  }

  /** One call spent, then the rest: the same as spending them all at once. */
  lemma SpendDrain(budget: Option<nat>, calls: nat)
    requires calls >= 1
    ensures Drain(Spend(budget), calls - 1) == Drain(budget, calls)
  {
  }

  /** The text of the exception a call raises once the remote store stops answering. */
  const StoreUnavailable := "remote store unavailable"

  /**
   * How one `create_event` call of `e` ends, given whether a client was
   * obtained and whether the store answered: without a client a row is
   * synthesized and nothing is stored; an answering store appends the row;
   * otherwise the call raises and nothing is stored.
   */
  predicate Wrote(before: seq<EventRow>, after: seq<EventRow>, e: EventCreate, now: int,
                  connected: bool, up: bool, r: Result<EventRow, string>) {
    if !connected then r == Success(Stored(e, now)) && after == before
    else if up then r == Success(Stored(e, now)) && after == before + [Stored(e, now)]
    else r == Failure(StoreUnavailable) && after == before
  }

  /** The class-level client cache and flag of `Database`, together with the remote tables. */
  class Database {
    const settings: Settings
    const accepts: bool
    var enabled: bool
    var client: Option<Client>
    var sessions: map<Uuid, SessionRow>
    var events: seq<EventRow>
    var budget: Option<nat>

    constructor (settings: Settings, accepts: bool, sessions: map<Uuid, SessionRow>, events: seq<EventRow>, budget: Option<nat>)
      ensures this.settings == settings && this.accepts == accepts
      ensures enabled && client.None?
      ensures this.sessions == sessions && this.events == events && this.budget == budget
    {
      this.settings := settings;
      this.accepts := accepts;
      enabled := true;
      client := None;
      this.sessions := sessions;
      this.events := events;
      this.budget := budget;
    }

    function State(): ClientState reads this {
      ClientState(enabled, client)
    }

    /** The outcome `get_client` would have in the current state. */
    function Attempt(): (ClientState, Option<Client>) reads this {
      Connect(State(), settings, accepts)
    }

    /** Whether the store, once reached, answers the next call. */
    function Up(): bool reads this {
      budget != Some(0)
    }

    /** `Database.get_client`. */
    method GetClient() returns (c: Option<Client>)
      modifies this`enabled, this`client
      ensures (State(), c) == old(Attempt())
    {
      if !enabled {
        return None;
      }
      if client.None? {
        if settings.supabaseUrl == "" || settings.supabaseKey == "" {
          enabled := false;
          return None;
        }
        if !StartsWith(settings.supabaseUrl, "http") {
          enabled := false;
          return None;
        }
        if !accepts {
          enabled := false;
          return None;
        }
        client := Some(Client(settings.supabaseUrl, settings.supabaseKey));
      }
      c := client;
    }

    /** `Database.is_enabled`: the flag, and (only when it is set) a client. */
    method IsEnabled() returns (b: bool)
      modifies this`enabled, this`client
      ensures old(enabled) ==> (State(), b) == (old(Attempt()).0, old(Attempt()).1.Some?)
      ensures !old(enabled) ==> !b && State() == old(State())
    {
      if !enabled {
        return false;
      }
      var c := GetClient();
      b := c.Some?;
    }

    /** `Database.reset_client`: forget the cached client and enable again. */
    method ResetClient()
      modifies this`enabled, this`client
      ensures enabled && client.None?
    {
      client := None;
      enabled := true;
    }

    /** One request to the remote store: whether it answered. */
    method Call() returns (ok: bool)
      modifies this`budget
      ensures ok == old(Up()) && budget == Spend(old(budget))
    {
      ok := budget != Some(0);
      budget := Spend(budget);
    }

    /**
     * `create_session`: without a client a record is synthesized and nothing is
     * stored; with one the row is inserted with the id the store assigns.
     */
    method CreateSession(userId: string, freshId: Uuid, now: int, iso: int -> string) returns (r: Result<SessionRow, string>)
      requires freshId !in sessions
      modifies this
      ensures State() == old(Attempt()).0 && events == old(events)
      ensures var row := SessionRow(freshId, userId, Active, JString(iso(now)), None, None, None, None);
        && (old(Attempt()).1.None? ==> r == Success(row) && sessions == old(sessions) && budget == old(budget))
        && (old(Attempt()).1.Some? && old(Up()) ==> r == Success(row) && sessions == old(sessions)[freshId := row])
        && (old(Attempt()).1.Some? && !old(Up()) ==> r == Failure(StoreUnavailable) && sessions == old(sessions))
        && (old(Attempt()).1.Some? ==> budget == Spend(old(budget)))
    {
      var row := SessionRow(freshId, userId, Active, JString(iso(now)), None, None, None, None);
      var c := GetClient();
      if c.None? {
        return Success(row);
      }
      var ok := Call();
      if !ok {
        return Failure(StoreUnavailable);
      }
      sessions := sessions[freshId := row];
      r := Success(row);
    }

    /** `get_session`: the row, or None without a client or for an unknown id. */
    method GetSession(id: Uuid) returns (r: Result<Option<SessionRow>, string>)
      modifies this`enabled, this`client, this`budget
      ensures State() == old(Attempt()).0
      ensures old(Attempt()).1.None? ==> r == Success(None) && budget == old(budget)
      ensures old(Attempt()).1.Some? ==> budget == Spend(old(budget))
      ensures old(Attempt()).1.Some? && old(Up()) ==> r == Success(if id in sessions then Some(sessions[id]) else None)
      ensures old(Attempt()).1.Some? && !old(Up()) ==> r == Failure(StoreUnavailable)
    {
      var c := GetClient();
      if c.None? {
        return Success(None);
      }
      var ok := Call();
      if !ok {
        return Failure(StoreUnavailable);
      }
      r := Success(if id in sessions then Some(sessions[id]) else None);
    }

    /** `update_session`: applies the update to the row with that id, if there is one. */
    method UpdateSession(id: Uuid, u: SessionUpdate) returns (r: Result<Option<SessionRow>, string>)
      modifies this`enabled, this`client, this`budget, this`sessions
      ensures State() == old(Attempt()).0
      ensures old(Attempt()).1.None? ==> r == Success(None) && budget == old(budget)
      ensures old(Attempt()).1.Some? ==> budget == Spend(old(budget))
      ensures old(Attempt()).1.Some? && old(Up()) && id in old(sessions) ==>
                sessions == old(sessions)[id := Apply(old(sessions)[id], u)] && r == Success(Some(sessions[id]))
      ensures !(old(Attempt()).1.Some? && old(Up()) && id in old(sessions)) ==> sessions == old(sessions)
      ensures old(Attempt()).1.Some? && old(Up()) && id !in old(sessions) ==> r == Success(None)
      ensures old(Attempt()).1.Some? && !old(Up()) ==> r == Failure(StoreUnavailable)
    {
      var c := GetClient();
      if c.None? {
        return Success(None);
      }
      var ok := Call();
      if !ok {
        return Failure(StoreUnavailable);
      }
      if id in sessions {
        sessions := sessions[id := Apply(sessions[id], u)];
        r := Success(Some(sessions[id]));
      } else {
        r := Success(None);
      }
    }

    /** `finalize_session`: an update writing the summary, end time and duration, and completing the session. */
    method FinalizeSession(id: Uuid, summary: string, endTime: int, durationSeconds: int) returns (r: Result<Option<SessionRow>, string>)
      modifies this`enabled, this`client, this`budget, this`sessions
      ensures State() == old(Attempt()).0
      ensures old(Attempt()).1.None? ==> r == Success(None) && budget == old(budget)
      ensures old(Attempt()).1.Some? ==> budget == Spend(old(budget))
      ensures old(Attempt()).1.Some? && old(Up()) && id in old(sessions) ==>
                sessions == old(sessions)[id := Apply(old(sessions)[id], FinalizeUpdate(summary, endTime, durationSeconds))]
                && r == Success(Some(sessions[id]))
      ensures !(old(Attempt()).1.Some? && old(Up()) && id in old(sessions)) ==> sessions == old(sessions)
      ensures old(Attempt()).1.Some? && old(Up()) && id !in old(sessions) ==> r == Success(None)
      ensures old(Attempt()).1.Some? && !old(Up()) ==> r == Failure(StoreUnavailable)
    {
      r := UpdateSession(id, FinalizeUpdate(summary, endTime, durationSeconds));
    }

    /** `delete_session`: removes the session's events, then the session; never raises. */
    method DeleteSession(id: Uuid) returns (deleted: bool)
      modifies this`enabled, this`client, this`budget, this`sessions, this`events
      ensures State() == old(Attempt()).0
      ensures deleted <==> old(Attempt()).1.Some? && old(budget) != Some(0) && old(budget) != Some(1) && id in old(sessions)
      ensures old(Attempt()).1.Some? && old(Up()) ==> events == Without(old(events), {id})
      ensures !(old(Attempt()).1.Some? && old(Up())) ==> events == old(events)
      ensures sessions == if old(Attempt()).1.Some? && old(budget) != Some(0) && old(budget) != Some(1)
                          then old(sessions) - {id} else old(sessions)
      ensures budget == if old(Attempt()).1.Some? then Drain(old(budget), 2) else old(budget)
    {
      var c := GetClient();
      if c.None? {
        return false;
      }
      var ok := Call();
      if !ok {
        return false;
      }
      events := Without(events, {id});
      ok := Call();
      if !ok {
        return false;
      }
      deleted := id in sessions;
      sessions := sessions - {id};
    }

    /** `get_session_message_count`: the session's user messages; 0 without a client or on error. */
    method GetSessionMessageCount(id: Uuid) returns (n: nat)
      modifies this`enabled, this`client, this`budget
      ensures State() == old(Attempt()).0
      ensures n == if old(Attempt()).1.Some? && old(Up()) then UserMessageCount(events, id) else 0
      ensures budget == if old(Attempt()).1.Some? then Spend(old(budget)) else old(budget)
    {
      var c := GetClient();
      if c.None? {
        return 0;
      }
      var ok := Call();
      if !ok {
        return 0;
      }
      n := UserMessageCount(events, id);
    }

    /** `create_event`: stores the event with the current time, or synthesizes it without a client. */
    method CreateEvent(e: EventCreate, now: int) returns (r: Result<EventRow, string>)
      modifies this`enabled, this`client, this`budget, this`events
      ensures State() == old(Attempt()).0
      ensures old(Attempt()).1.None? ==> r == Success(Stored(e, now)) && events == old(events) && budget == old(budget)
      ensures old(Attempt()).1.Some? ==> budget == Spend(old(budget))
      ensures old(Attempt()).1.Some? && old(Up()) ==> r == Success(Stored(e, now)) && events == old(events) + [Stored(e, now)]
      ensures old(Attempt()).1.Some? && !old(Up()) ==> r == Failure(StoreUnavailable) && events == old(events)
    {
      var c := GetClient();
      if c.None? {
        return Success(Stored(e, now));
      }
      var ok := Call();
      if !ok {
        return Failure(StoreUnavailable);
      }
      events := events + [Stored(e, now)];
      r := Success(Stored(e, now));
    }

    /** `get_session_events`: the session's events of the given types, ascending by timestamp. */
    method GetSessionEvents(id: Uuid, eventTypes: Option<seq<EventType>>) returns (r: Result<seq<EventRow>, string>)
      modifies this`enabled, this`client, this`budget
      ensures State() == old(Attempt()).0
      ensures old(Attempt()).1.None? ==> r == Success([]) && budget == old(budget)
      ensures old(Attempt()).1.Some? ==> budget == Spend(old(budget))
      ensures old(Attempt()).1.Some? && old(Up()) ==> r == Success(SessionEvents(events, id, eventTypes))
      ensures old(Attempt()).1.Some? && !old(Up()) ==> r == Failure(StoreUnavailable)
    {
      var c := GetClient();
      if c.None? {
        return Success([]);
      }
      var ok := Call();
      if !ok {
        return Failure(StoreUnavailable);
      }
      r := Success(SessionEvents(events, id, eventTypes));
    }

    /** What `get_conversation_history` would answer in the current state. */
    function ConversationOutcome(id: Uuid): Result<seq<EventRow>, string> reads this {
      if Attempt().1.None? then Success([])
      else if Up() then Success(ConversationEvents(events, id))
      else Failure(StoreUnavailable)
    }

    /** `get_conversation_history`: the session's user messages and AI responses in time order. */
    method GetConversationHistory(id: Uuid) returns (r: Result<seq<EventRow>, string>)
      modifies this`enabled, this`client, this`budget
      ensures State() == old(Attempt()).0
      ensures budget == if old(Attempt()).1.Some? then Spend(old(budget)) else old(budget)
      ensures r == old(ConversationOutcome(id))
    {
      r := GetSessionEvents(id, Some([UserMessage, AiResponse]));
    }

    /** Sessions that were never ended (`end_time is null`). */
    function OpenSessions(): set<Uuid> reads this {
      set id | id in sessions && sessions[id].endTime.None?
    }

    /**
     * `cleanup_empty_sessions`: for every open session without user messages,
     * deletes its events and then the session, and returns how many it
     * deleted; when a call fails it stops and returns the count reached so
     * far. `purged` names the sessions whose events were removed and
     * `removed` those whose row was removed as well.
     */
    method CleanupEmptySessions() returns (deleted: nat, ghost purged: set<Uuid>, ghost removed: set<Uuid>)
      modifies this`enabled, this`client, this`budget, this`sessions, this`events
      ensures State() == old(Attempt()).0
      ensures forall id :: id in purged ==> id in old(OpenSessions()) && UserMessageCount(old(events), id) == 0
      ensures removed <= purged && |purged - removed| <= 1
      ensures events == Without(old(events), purged)
      ensures sessions == old(sessions) - removed && deleted == |removed|
      ensures old(Attempt()).1.Some? && old(budget).None? ==>
                removed == purged == set id | id in old(OpenSessions()) && UserMessageCount(old(events), id) == 0
      ensures old(Attempt()).1.Some? && Lasts(old(budget), 1 + SweepCost(old(OpenSessions()), old(events))) ==>
                removed == purged == Empties(old(OpenSessions()), old(events))
    {
      purged, removed := {}, {};
      deleted := 0;
      WithoutNone(events);
      var c := GetClient();
      if c.None? {
        return;
      }
      var ok := Call();
      if !ok {
        return;
      }
      deleted, purged, removed := SweepAll(OpenSessions());
    }

    /**
     * How far the cleanup loop over `open` has got, from the events `events0`,
     * the rows `sessions0` and the budget `budget0` it started with:
     * `remaining` are the sessions not visited yet, `needed` the calls the
     * visited ones need, and `ok` whether every call so far was answered.
     */
    ghost predicate Swept(open: set<Uuid>, remaining: set<Uuid>, purged: set<Uuid>, removed: set<Uuid>, deleted: nat,
                          needed: nat, ok: bool, events0: seq<EventRow>, sessions0: map<Uuid, SessionRow>, budget0: Option<nat>)
      reads this
    {
      && remaining <= open
      && (forall id :: id in purged ==> id in open - remaining && UserMessageCount(events0, id) == 0)
      && removed <= purged && |purged - removed| <= 1 && (ok ==> removed == purged)
      && events == Without(events0, purged)
      && sessions == sessions0 - removed && deleted == |removed|
      && needed + SweepCost(remaining, events0) == SweepCost(open, events0)
      && (ok ==> Lasts(budget0, needed) && budget == Drain(budget0, needed))
      && (ok ==> purged == Empties(open - remaining, events0))
      && (!ok ==> !Lasts(budget0, needed))
    }

    /** The loop of `cleanup_empty_sessions` over the open sessions `open`. */
    method SweepAll(open: set<Uuid>) returns (deleted: nat, ghost purged: set<Uuid>, ghost removed: set<Uuid>)
      requires open <= sessions.Keys
      modifies this`budget, this`sessions, this`events
      ensures forall id :: id in purged ==> id in open && UserMessageCount(old(events), id) == 0
      ensures removed <= purged && |purged - removed| <= 1
      ensures events == Without(old(events), purged)
      ensures sessions == old(sessions) - removed && deleted == |removed|
      ensures old(budget).None? ==> removed == purged && forall id :: id in purged <==> id in open && UserMessageCount(old(events), id) == 0
      ensures Lasts(old(budget), SweepCost(open, old(events))) ==>
                removed == purged == Empties(open, old(events)) && budget == Drain(old(budget), SweepCost(open, old(events)))
    {
      purged, removed := {}, {};
      deleted := 0;
      WithoutNone(events);
      var ok := true;
      var remaining := open;
      ghost var needed: nat := 0;
      assert Empties(open - remaining, old(events)) == {};
      while remaining != {} && ok
        invariant Swept(open, remaining, purged, removed, deleted, needed, ok, old(events), old(sessions), old(budget))
        decreases remaining
      {
        var id :| id in remaining;
        ok, purged, removed, deleted, needed :=
          SweepNext(open, remaining, id, purged, removed, deleted, needed, old(events), old(sessions), old(budget));
        remaining := remaining - {id};
      }
      SweptAll(open, remaining, purged, removed, deleted, needed, ok, old(events), old(sessions), old(budget));
    }

    /** What the cleanup loop has done once it stops: every session visited, or a call refused. */
    lemma SweptAll(open: set<Uuid>, remaining: set<Uuid>, purged: set<Uuid>, removed: set<Uuid>, deleted: nat,
                   needed: nat, ok: bool, events0: seq<EventRow>, sessions0: map<Uuid, SessionRow>, budget0: Option<nat>)
      requires Swept(open, remaining, purged, removed, deleted, needed, ok, events0, sessions0, budget0)
      requires remaining == {} || !ok
      ensures forall id :: id in purged ==> id in open && UserMessageCount(events0, id) == 0
      ensures removed <= purged && |purged - removed| <= 1
      ensures events == Without(events0, purged)
      ensures sessions == sessions0 - removed && deleted == |removed|
      ensures budget0.None? ==> removed == purged && forall id :: id in purged <==> id in open && UserMessageCount(events0, id) == 0
      ensures Lasts(budget0, SweepCost(open, events0)) ==>
                removed == purged == Empties(open, events0) && budget == Drain(budget0, SweepCost(open, events0))
    {
      if ok {
        assert open - remaining == open;
      }
    }

    /** One pass of the cleanup loop: the session `id` is swept, and the loop's bookkeeping carried past it. */
    method SweepNext(ghost open: set<Uuid>, ghost remaining: set<Uuid>, id: Uuid, ghost purged: set<Uuid>, ghost removed: set<Uuid>, deleted: nat,
                     ghost needed: nat, ghost events0: seq<EventRow>, ghost sessions0: map<Uuid, SessionRow>,
                     ghost budget0: Option<nat>)
      returns (ok: bool, ghost purged': set<Uuid>, ghost removed': set<Uuid>, deleted': nat, ghost needed': nat)
      requires id in remaining
      requires Swept(open, remaining, purged, removed, deleted, needed, true, events0, sessions0, budget0)
      modifies this`budget, this`sessions, this`events
      ensures Swept(open, remaining - {id}, purged', removed', deleted', needed', ok, events0, sessions0, budget0)
    {
      KeepWithout(events0, purged, id, {UserMessage});
      WithoutTwice(events0, purged, {id});
      SweepCostStep(remaining, id, events0);
      EmptiesStep(open - remaining, id, events0);
      var cost := if UserMessageCount(events0, id) == 0 then 3 else 1;
      DrainMore(budget0, needed, cost);
      var emptied, dropped;
      ok, emptied, dropped := Sweep(id);
      needed' := needed + cost;
      purged', removed', deleted' := purged, removed, deleted;
      if emptied {
        purged' := purged + {id};
      }
      if dropped {
        RemoveOneMore(sessions0, removed, id);
        removed' := removed + {id};
        deleted' := deleted + 1;
      }
      assert open - (remaining - {id}) == (open - remaining) + {id};
    }

    /**
     * One iteration of the cleanup loop: count the session's user messages and,
     * when there are none, delete its events and then its row. `ok` is false
     * when a call failed, which ends the cleanup.
     */
    method Sweep(id: Uuid) returns (ok: bool, emptied: bool, dropped: bool)
      modifies this`budget, this`events, this`sessions
      ensures emptied ==> old(Up()) && UserMessageCount(old(events), id) == 0 && events == Without(old(events), {id})
      ensures !emptied ==> events == old(events)
      ensures dropped ==> emptied && sessions == old(sessions) - {id}
      ensures !dropped ==> sessions == old(sessions)
      ensures ok ==> dropped == emptied
      ensures budget.None? <==> old(budget).None?
      ensures old(budget).None? ==> ok && (emptied <==> UserMessageCount(old(events), id) == 0)
      ensures ok <==> Lasts(old(budget), if UserMessageCount(old(events), id) == 0 then 3 else 1)
      ensures emptied <==> Lasts(old(budget), 2) && UserMessageCount(old(events), id) == 0
      ensures dropped <==> Lasts(old(budget), 3) && UserMessageCount(old(events), id) == 0
      ensures budget == Drain(old(budget), if UserMessageCount(old(events), id) == 0 then 3 else 1)
    {
      emptied, dropped := false, false;
      ok := Call();
      if !ok {
        return;
      }
      if UserMessageCount(events, id) != 0 {
        return;
      }
      ok := Call();
      if !ok {
        return;
      }
      events := Without(events, {id});
      emptied := true;
      ok := Call();
      if !ok {
        return;
      }
      sessions := sessions - {id};
      dropped := true;
    }
  }

  /** The sessions among `s` without a user message in `events`. */
  function Empties(s: set<Uuid>, events: seq<EventRow>): set<Uuid> {
    set id | id in s && UserMessageCount(events, id) == 0
  }

  /**
   * The calls the cleanup loop makes over `s` when none fails: one count per
   * session, and two deletions per session without a user message.
   */
  function SweepCost(s: set<Uuid>, events: seq<EventRow>): nat {
    |s| + 2 * |Empties(s, events)|
  }

  /** Taking one session out of the loop's set takes its calls out of the cost. */
  lemma SweepCostStep(s: set<Uuid>, id: Uuid, events: seq<EventRow>)
    requires id in s
    ensures SweepCost(s, events) == SweepCost(s - {id}, events) + (if UserMessageCount(events, id) == 0 then 3 else 1)
  {
    var rest := s - {id};
    assert s == rest + {id} && id !in rest;
    if UserMessageCount(events, id) == 0 {
      assert Empties(s, events) == Empties(rest, events) + {id};
    } else {
      assert Empties(s, events) == Empties(rest, events);
    }
  }

  /** Visiting one more session adds it to the empty ones seen exactly when it is empty. */
  lemma EmptiesStep(seen: set<Uuid>, id: Uuid, events: seq<EventRow>)
    ensures Empties(seen + {id}, events) == Empties(seen, events) + (if UserMessageCount(events, id) == 0 then {id} else {})
  {
  }

  /** Draining further: calls beyond a lasting budget are answered exactly when the budget lasts for all of them. */
  lemma DrainMore(budget: Option<nat>, done: nat, more: nat)
    requires Lasts(budget, done)
    ensures Lasts(Drain(budget, done), more) <==> Lasts(budget, done + more)
    ensures Drain(Drain(budget, done), more) == Drain(budget, done + more)
  {
  }

  lemma RemoveOneMore(m: map<Uuid, SessionRow>, gone: set<Uuid>, id: Uuid)
    ensures (m - gone) - {id} == m - (gone + {id})
  {
  }

  /** Removing the events of no session changes nothing. */
  lemma {:induction false} WithoutNone(events: seq<EventRow>)
    ensures Without(events, {}) == events
  {
    if events != [] {
      WithoutNone(events[1..]);
    }
  }
}
