/**
 * The session lifecycle manager (app/services/session.py): one object per
 * WebSocket connection that starts, ends or resumes its session in the store
 * and writes the audit events of the conversation under its session id.
 *
 * Times are whole seconds; `now` is the caller's clock reading and `parse`
 * stands for `datetime.fromisoformat`, returning `None` where it raises.
 */
module Sessions {
  import opened Wrappers
  import opened Models
  import Strings
  import Store

  /** The duration recorded when a session ends: end minus start, if the start is known. */
  function Elapsed(start: Option<int>, end: int): (d: Option<int>)
    ensures d.Some? <==> start.Some?
    ensures d.Some? ==> start.value + d.value == end
  {
    if start.Some? then Some(end - start.value) else None
  }

  /** The "Session ended" system event, with the duration (or null) in its metadata. */
  function EndedRecord(sessionId: Uuid, duration: Option<int>): (e: EventCreate)
    ensures e.eventType == System && e.sessionId == sessionId && e.content == "Session ended"
    ensures e.metadata.Some? && "duration_seconds" in e.metadata.value
    ensures e.metadata.value["duration_seconds"].JNumber? <==> duration.Some?
    ensures duration.Some? ==> e.metadata.value["duration_seconds"] == JNumber(duration.value)
  {
    Store.SystemRecord(sessionId, "Session ended",
      Some(map["duration_seconds" := if duration.Some? then JNumber(duration.value) else JNull]))
  }

  /** The update `end_session` sends: end time, duration and the completed status. */
  function EndUpdate(endTime: int, duration: Option<int>): Store.SessionUpdate {
    Store.SessionUpdate(Store.Put(Completed), Store.Put(Some(endTime)), Store.Put(duration), Store.Unchanged, Store.Unchanged)
  }

  /** The update `resume_session` sends: the active status and a cleared end time. */
  function ResumeUpdate(): Store.SessionUpdate {
    Store.SessionUpdate(Store.Put(Active), Store.Put(None), Store.Unchanged, Store.Unchanged, Store.Unchanged)
  }

  /** The row `start_session` creates: active, started now, with nothing else filled in yet. */
  function StartedRow(id: Uuid, userId: string, now: int, iso: int -> string): Store.SessionRow {
    Store.SessionRow(id, userId, Active, JString(iso(now)), None, None, None, None)
  }

  /** An ended session is completed and closed, and keeps its identity, start, summary and name. */
  lemma EndedRowIsClosed(row: Store.SessionRow, endTime: int, duration: Option<int>)
    ensures var r := Store.Apply(row, EndUpdate(endTime, duration));
      && r.status == Completed && r.endTime == Some(endTime) && r.durationSeconds == duration
      && r.id == row.id && r.userId == row.userId && r.startTime == row.startTime
      && r.summary == row.summary && r.name == row.name
  {
  }

  /**
   * Resuming an ended session reopens it (active, no end time) but leaves the
   * duration of the earlier end in place.
   */
  lemma ResumeKeepsOldDuration(row: Store.SessionRow, endTime: int, duration: Option<int>)
    ensures var r := Store.Apply(Store.Apply(row, EndUpdate(endTime, duration)), ResumeUpdate());
      && r.status == Active && r.endTime.None? && r.durationSeconds == duration
  {
  }

  /** The text handed to the ISO parser: a trailing `Z` is spelled out as `+00:00`. */
  function IsoText(s: string): (t: string)
    ensures 'Z' !in t
  {
    Strings.ReplaceChar(s, 'Z', "+00:00")
  }

  /**
   * The start time a resumed manager takes from the stored `start_time`: the
   * parsed timestamp when it is a non-empty string the parser accepts, and
   * the current time otherwise.
   */
  function ResumedStart(stored: Json, now: int, parse: string -> Option<int>): (t: int)
    ensures stored.JString? && stored.s != "" && parse(IsoText(stored.s)).Some? ==> t == parse(IsoText(stored.s)).value
    ensures !(stored.JString? && stored.s != "" && parse(IsoText(stored.s)).Some?) ==> t == now
  {
    if !Truthy(stored) then now
    else match stored
      case JString(s) => (match parse(IsoText(s)) case Some(v) => v case None => now)
      case _ => now
  }

  /** A stored start time already written with an offset is parsed exactly as stored. */
  lemma ResumedStartWithOffset(s: string, now: int, parse: string -> Option<int>)
    requires s != [] && 'Z' !in s
    ensures ResumedStart(JString(s), now, parse) == if parse(s).Some? then parse(s).value else now
  {
    Strings.ReplaceAbsent(s, 'Z', "+00:00");
  }

  /** The error `resume_session` raises for an id the store does not know. */
  function NotFound(sessionId: Uuid): string {
    "Session not found: " + sessionId
  }

  /** `SessionManager`: the session a connection works in. */
  class SessionManager {
    var sessionId: Uuid
    const userId: string
    var startTime: Option<int>
    var isActive: bool

    /** `SessionManager(session_id, user_id)`: not started and not active. */
    constructor (sessionId: Uuid, userId: string)
      ensures this.sessionId == sessionId && this.userId == userId
      ensures startTime.None? && !isActive
    {
      this.sessionId := sessionId;
      this.userId := userId;
      startTime := None;
      isActive := false;
    }

    /**
     * `start_session`: notes the start time, creates the session row (the
     * store picks the id `freshId`), and on success adopts that id and
     * becomes active. Without a client the synthesized row is adopted just
     * the same; a store that does not answer makes it raise, with the start
     * time already set and nothing else changed.
     */
    method StartSession(db: Store.Database, freshId: Uuid, now: int, iso: int -> string) returns (r: Result<Store.SessionRow, string>)
      requires freshId !in db.sessions
      modifies this`sessionId, this`startTime, this`isActive, db
      ensures startTime == Some(now) && db.events == old(db.events)
      ensures db.State() == old(db.Attempt()).0
      ensures db.budget == if old(db.Attempt()).1.Some? then Store.Spend(old(db.budget)) else old(db.budget)
      ensures var row := StartedRow(freshId, userId, now, iso);
        && (old(db.Attempt()).1.None? ==> r == Success(row) && db.sessions == old(db.sessions))
        && (old(db.Attempt()).1.Some? && old(db.Up()) ==> r == Success(row) && db.sessions == old(db.sessions)[freshId := row])
        && (old(db.Attempt()).1.Some? && !old(db.Up()) ==> r == Failure(Store.StoreUnavailable) && db.sessions == old(db.sessions))
      ensures r.Success? ==> isActive && sessionId == freshId
      ensures r.Failure? ==> isActive == old(isActive) && sessionId == old(sessionId)
    {
      startTime := Some(now);
      r := db.CreateSession(userId, freshId, now, iso);
      if r.Success? {
        sessionId := r.value.id;
        isActive := true;
      }
    }

    /**
     * `end_session`: nothing happens for an inactive manager. Otherwise it
     * becomes inactive first, logs the "Session ended" event with the
     * duration, then completes the row; a failure of either call is passed on.
     */
    method EndSession(db: Store.Database, now: int) returns (r: Result<Option<Store.SessionRow>, string>)
      modifies this`isActive, db`enabled, db`client, db`budget, db`events, db`sessions
      ensures !isActive
      ensures !old(isActive) ==> r == Success(None) && unchanged(db)
      ensures old(isActive) && old(db.Attempt()).1.None? ==>
        r == Success(None) && db.events == old(db.events) && db.sessions == old(db.sessions)
      ensures old(isActive) && old(db.Attempt()).1.Some? && !Store.Lasts(old(db.budget), 1) ==>
        r == Failure(Store.StoreUnavailable) && db.events == old(db.events) && db.sessions == old(db.sessions)
      ensures old(isActive) && old(db.Attempt()).1.Some? && Store.Lasts(old(db.budget), 1) ==>
        db.events == old(db.events) + [Store.Stored(EndedRecord(sessionId, Elapsed(startTime, now)), now)]
      ensures old(isActive) && old(db.Attempt()).1.Some? && Store.Lasts(old(db.budget), 1) && !Store.Lasts(old(db.budget), 2) ==>
        r == Failure(Store.StoreUnavailable) && db.sessions == old(db.sessions)
      ensures old(isActive) && old(db.Attempt()).1.Some? && Store.Lasts(old(db.budget), 2) ==>
        if sessionId in old(db.sessions) then
          var closed := Store.Apply(old(db.sessions)[sessionId], EndUpdate(now, Elapsed(startTime, now)));
          r == Success(Some(closed)) && db.sessions == old(db.sessions)[sessionId := closed]
        else
          r == Success(None) && db.sessions == old(db.sessions)
    {
      if !isActive {
        return Success(None);
      }
      isActive := false;
      var duration := Elapsed(startTime, now);
      var logged := db.CreateEvent(EndedRecord(sessionId, duration), now);
      if logged.Failure? {
        return Failure(logged.error);
      }
      Store.ConnectIdempotent(old(db.State()), db.settings, db.accepts);
      r := db.UpdateSession(sessionId, EndUpdate(now, duration));
    }

    /**
     * `resume_session`: the row must exist, otherwise "Session not found" is
     * raised (always so without a store). The manager becomes active, takes
     * its start time from the row, and the row is reopened; the row as read is
     * returned.
     */
    method ResumeSession(db: Store.Database, now: int, parse: string -> Option<int>) returns (r: Result<Store.SessionRow, string>)
      modifies this`isActive, this`startTime, db`enabled, db`client, db`budget, db`sessions
      ensures db.State() == old(db.Attempt()).0
      ensures db.budget == if old(db.Attempt()).1.Some? then Store.Drain(old(db.budget), if sessionId in old(db.sessions) then 2 else 1)
                           else old(db.budget)
      ensures old(db.Attempt()).1.None? ==> r == Failure(NotFound(sessionId)) && db.sessions == old(db.sessions)
      ensures old(db.Attempt()).1.Some? && !old(db.Up()) ==> r == Failure(Store.StoreUnavailable)
      ensures old(db.Attempt()).1.Some? && old(db.Up()) && sessionId !in old(db.sessions) ==> r == Failure(NotFound(sessionId))
      ensures !(old(db.Attempt()).1.Some? && old(db.Up()) && sessionId in old(db.sessions)) ==>
        isActive == old(isActive) && startTime == old(startTime)
      ensures old(db.Attempt()).1.Some? && old(db.Up()) && sessionId in old(db.sessions) ==>
        isActive && startTime == Some(ResumedStart(old(db.sessions)[sessionId].startTime, now, parse))
      ensures old(db.Attempt()).1.Some? && Store.Lasts(old(db.budget), 2) && sessionId in old(db.sessions) ==>
        r == Success(old(db.sessions)[sessionId])
      ensures old(db.Attempt()).1.Some? && Store.Lasts(old(db.budget), 1) && !Store.Lasts(old(db.budget), 2) && sessionId in old(db.sessions) ==>
        r == Failure(Store.StoreUnavailable)
      ensures r.Success? ==> && sessionId in old(db.sessions) && r.value == old(db.sessions)[sessionId]
                             && db.sessions == old(db.sessions)[sessionId := Store.Apply(r.value, ResumeUpdate())]
                             && isActive && startTime == Some(ResumedStart(r.value.startTime, now, parse))
      ensures r.Failure? && isActive && !old(isActive) ==> old(db.budget) == Some(1) && sessionId in old(db.sessions)
      ensures r.Failure? ==> db.sessions == old(db.sessions)
    {
      var found := db.GetSession(sessionId);
      if found.Failure? {
        return Failure(found.error);
      }
      if found.value.None? {
        return Failure(NotFound(sessionId));
      }
      var row := found.value.value;
      isActive := true;
      startTime := Some(ResumedStart(row.startTime, now, parse));
      Store.ConnectIdempotent(old(db.State()), db.settings, db.accepts);
      var updated := db.UpdateSession(sessionId, ResumeUpdate());
      if updated.Failure? {
        return Failure(updated.error);
      }
      r := Success(row);
    }

    /** `log_user_input`. */
    method LogUserInput(db: Store.Database, content: string, now: int) returns (r: Result<Store.EventRow, string>)
      modifies db`enabled, db`client, db`budget, db`events
      ensures db.State() == old(db.Attempt()).0
      ensures db.budget == if old(db.Attempt()).1.Some? then Store.Spend(old(db.budget)) else old(db.budget)
      ensures Store.Wrote(old(db.events), db.events, Store.UserMessageRecord(sessionId, content), now, old(db.Attempt()).1.Some?, old(db.Up()), r)
    {
      r := db.CreateEvent(Store.UserMessageRecord(sessionId, content), now);
    }

    /** `log_ai_output`. */
    method LogAiOutput(db: Store.Database, content: string, metadata: Option<Dict>, now: int) returns (r: Result<Store.EventRow, string>)
      modifies db`enabled, db`client, db`budget, db`events
      ensures db.State() == old(db.Attempt()).0
      ensures db.budget == if old(db.Attempt()).1.Some? then Store.Spend(old(db.budget)) else old(db.budget)
      ensures Store.Wrote(old(db.events), db.events, Store.AiResponseRecord(sessionId, content, metadata), now, old(db.Attempt()).1.Some?, old(db.Up()), r)
    {
      r := db.CreateEvent(Store.AiResponseRecord(sessionId, content, metadata), now);
    }

    /** `log_tool_execution`. */
    method LogToolExecution(db: Store.Database, toolName: string, toolInput: Dict, now: int) returns (r: Result<Store.EventRow, string>)
      modifies db`enabled, db`client, db`budget, db`events
      ensures db.State() == old(db.Attempt()).0
      ensures db.budget == if old(db.Attempt()).1.Some? then Store.Spend(old(db.budget)) else old(db.budget)
      ensures Store.Wrote(old(db.events), db.events, Store.ToolCallRecord(sessionId, toolName, toolInput), now, old(db.Attempt()).1.Some?, old(db.Up()), r)
    {
      r := db.CreateEvent(Store.ToolCallRecord(sessionId, toolName, toolInput), now);
    }

    /** `log_tool_output`. */
    method LogToolOutput(db: Store.Database, toolName: string, result: Json, now: int) returns (r: Result<Store.EventRow, string>)
      modifies db`enabled, db`client, db`budget, db`events
      ensures db.State() == old(db.Attempt()).0
      ensures db.budget == if old(db.Attempt()).1.Some? then Store.Spend(old(db.budget)) else old(db.budget)
      ensures Store.Wrote(old(db.events), db.events, Store.ToolResultRecord(sessionId, toolName, result), now, old(db.Attempt()).1.Some?, old(db.Up()), r)
    {
      r := db.CreateEvent(Store.ToolResultRecord(sessionId, toolName, result), now);
    }

    /** `log_error_event`. */
    method LogErrorEvent(db: Store.Database, message: string, metadata: Option<Dict>, now: int) returns (r: Result<Store.EventRow, string>)
      modifies db`enabled, db`client, db`budget, db`events
      ensures db.State() == old(db.Attempt()).0
      ensures db.budget == if old(db.Attempt()).1.Some? then Store.Spend(old(db.budget)) else old(db.budget)
      ensures Store.Wrote(old(db.events), db.events, Store.ErrorRecord(sessionId, message, metadata), now, old(db.Attempt()).1.Some?, old(db.Up()), r)
    {
      r := db.CreateEvent(Store.ErrorRecord(sessionId, message, metadata), now);
    }

    /** `get_session_info`: the stored row of this session, if the store has one. */
    method GetSessionInfo(db: Store.Database) returns (r: Result<Option<Store.SessionRow>, string>)
      modifies db`enabled, db`client, db`budget
      ensures db.State() == old(db.Attempt()).0
      ensures db.budget == if old(db.Attempt()).1.Some? then Store.Spend(old(db.budget)) else old(db.budget)
      ensures old(db.Attempt()).1.None? ==> r == Success(None)
      ensures old(db.Attempt()).1.Some? && old(db.Up()) ==>
        r == Success(if sessionId in db.sessions then Some(db.sessions[sessionId]) else None)
      ensures old(db.Attempt()).1.Some? && !old(db.Up()) ==> r == Failure(Store.StoreUnavailable)
    {
      r := db.GetSession(sessionId);
    }
  }
}
