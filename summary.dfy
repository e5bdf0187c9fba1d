/**
 * Post-session processing (app/services/summary.py): an ended session with
 * no user messages is deleted; any other is summarised, named and finalized.
 *
 * The language model is replaced by two caller-supplied functions: `summarise`
 * maps a transcript to the model's reply (or the text of what it raises), and
 * `name` maps a summary to the model's title reply (or the error).
 */
module Summary {
  import opened Wrappers
  import opened Models
  import Strings
  import Store

  // ---------------------------------------------------------------- chat names

  predicate IsQuote(c: char) {
    c == '"' || c == '\''
  }

  /** The model's title reply with surrounding whitespace and then surrounding quotes removed. */
  function Trimmed(reply: string): (t: string)
    ensures |t| <= |reply|
    ensures t != [] ==> !IsQuote(t[0]) && !IsQuote(t[|t| - 1])
  {
    Strings.Strip(Strings.StripSpace(reply), IsQuote)
  }

  /** A title cut to its first 47 characters plus "..." when longer than 50. */
  function Shorten(t: string): (name: string)
    ensures |name| <= 50
    ensures |t| <= 50 ==> name == t
    ensures |t| > 50 ==> |name| == 50 && name[..47] == t[..47] && name[47..] == "..."
  {
    if |t| > 50 then t[..47] + "..." else t
  }

  /** The title kept from a successful reply: the trimmed reply, shortened. */
  function ChatName(reply: string): (name: string)
    ensures |name| <= 50
  {
    Shorten(Trimmed(reply))
  }

  /** A kept title never starts with a quote; a short one never ends with one either. */
  lemma ChatNameUnquoted(reply: string)
    ensures ChatName(reply) != [] ==> !IsQuote(ChatName(reply)[0])
    ensures |Trimmed(reply)| <= 50 && ChatName(reply) != [] ==> !IsQuote(ChatName(reply)[|ChatName(reply)| - 1])
  {
    var t := Trimmed(reply);
    var n := ChatName(reply);
    assert n == Shorten(t);
    if |t| > 50 {
      assert n[0] == t[..47][0];
    } else if n != [] {
      assert n == t;
      assert !IsQuote(t[|t| - 1]);
    }
  }

  /** The title used when the model fails: the summary, or its first 30 characters plus "...". */
  function FallbackName(summary: string): (name: string)
    ensures |name| <= 33
    ensures |summary| <= 30 ==> name == summary
    ensures |summary| > 30 ==> name == summary[..30] + "..."
  {
    if |summary| > 30 then summary[..30] + "..." else summary
  }

  /** `generate_chat_name`, given what the model answers for this summary. */
  function GenerateChatName(summary: string, reply: Result<string, string>): (name: string)
    ensures reply.Success? ==> name == ChatName(reply.value) && |name| <= 50
    ensures reply.Failure? ==> name == FallbackName(summary) && |name| <= 33
  {
    match reply
    case Success(content) => ChatName(content)
    case Failure(_) => FallbackName(summary)
  }

  // ---------------------------------------------------------------- transcripts

  const NoConversation := "No conversation took place in this session."
  const NoSummary := "No summary available"

  /** One transcript line: the speaker, then the message. */
  function Line(e: Store.EventRow): string {
    (if e.eventType == UserMessage then "User: " else "Assistant: ") + e.content
  }

  function Lines(events: seq<Store.EventRow>): (r: seq<string>)
    ensures |r| == |events|
    ensures forall k :: 0 <= k < |events| ==> r[k] == Line(events[k])
  {
    seq(|events|, k requires 0 <= k < |events| => Line(events[k]))
  }

  /** The transcript loop of `generate_session_summary`: one line per event, joined with newlines. */
  method Transcript(events: seq<Store.EventRow>) returns (text: string)
    ensures text == Strings.Join(Lines(events), "\n")
  {
    var lines: seq<string> := [];
    for i := 0 to |events|
      invariant lines == Lines(events[..i])
    {
      lines := lines + [Line(events[i])];
      assert Lines(events[..i + 1]) == Lines(events[..i]) + [Line(events[i])];
    }
    assert events[..|events|] == events;
    text := Strings.Join(lines, "\n");
  }

  /** A string without the separator splits into itself alone. */
  lemma {:induction false} SplitWhole(a: string, sep: char)
    requires sep !in a
    ensures Strings.Split(a, sep) == [a]
  {
    if a != [] {
      SplitWhole(a[1..], sep);
      assert a[0] != sep && [a[0]] + a[1..] == a;
    }
  }

  /** Splitting a separator-free piece followed by the separator peels that piece off. */
  lemma {:induction false} SplitAfterPiece(a: string, sep: char, b: string)
    requires sep !in a
    ensures Strings.Split(a + [sep] + b, sep) == [a] + Strings.Split(b, sep)
  {
    if a == [] {
      assert a + [sep] + b == [sep] + b;
    } else {
      var s := a + [sep] + b;
      assert s[0] == a[0] != sep && s[1..] == a[1..] + [sep] + b;
      SplitAfterPiece(a[1..], sep, b);
      assert [a[0]] + a[1..] == a;
    }
  }

  /** Splitting the join of separator-free pieces gives the pieces back. */
  lemma {:induction false} SplitJoin(parts: seq<string>, sep: char)
    requires parts != []
    requires forall k :: 0 <= k < |parts| ==> sep !in parts[k]
    ensures Strings.Split(Strings.Join(parts, [sep]), sep) == parts
    decreases |parts|
  {
    if |parts| == 1 {
      SplitWhole(parts[0], sep);
    } else {
      var rest := Strings.Join(parts[1..], [sep]);
      assert Strings.Join(parts, [sep]) == parts[0] + [sep] + rest;
      assert forall k :: 0 <= k < |parts[1..]| ==> sep !in parts[1..][k] by {
        forall k | 0 <= k < |parts[1..]| ensures sep !in parts[1..][k] {
          assert parts[1..][k] == parts[k + 1];
        }
      }
      SplitJoin(parts[1..], sep);
      SplitAfterPiece(parts[0], sep, rest);
      assert [parts[0]] + parts[1..] == parts;
    }
  }

  /** When no message spans several lines, the transcript splits back into exactly one line per event. */
  lemma TranscriptLines(events: seq<Store.EventRow>)
    requires events != []
    requires forall k :: 0 <= k < |events| ==> '\n' !in events[k].content
    ensures Strings.Split(Strings.Join(Lines(events), "\n"), '\n') == Lines(events)
  {
    var lines := Lines(events);
    forall k | 0 <= k < |lines|
      ensures '\n' !in lines[k]
    {
      var prefix := if events[k].eventType == UserMessage then "User: " else "Assistant: ";
      assert lines[k] == prefix + events[k].content;
      assert '\n' !in prefix;
    }
    assert "\n" == ['\n'];
    SplitJoin(lines, '\n');
  }

  /** What `generate_session_summary` returns for a given answer of the store. */
  function SummaryText(history: Result<seq<Store.EventRow>, string>, summarise: string -> Result<string, string>): (s: string)
    ensures history.Failure? ==> s == "Summary generation failed: " + history.error
    ensures history == Success([]) ==> s == NoConversation
  {
    match history
    case Failure(e) => "Summary generation failed: " + e
    case Success(events) =>
      if events == [] then NoConversation
      else match summarise(Strings.Join(Lines(events), "\n"))
        case Success(reply) => reply
        case Failure(e) => "Summary generation failed: " + e
  }

  /**
   * `generate_session_summary`: reads the conversation, and asks the model to
   * summarise its transcript; it never raises, reporting failures in the text.
   */
  method GenerateSessionSummary(db: Store.Database, sessionId: Uuid, summarise: string -> Result<string, string>) returns (s: string)
    modifies db`enabled, db`client, db`budget
    ensures s == SummaryText(old(db.ConversationOutcome(sessionId)), summarise)
    ensures db.State() == old(db.Attempt()).0
    ensures db.budget == if old(db.Attempt()).1.Some? then Store.Spend(old(db.budget)) else old(db.budget)
    ensures db.sessions == old(db.sessions) && db.events == old(db.events)
  {
    var history := db.GetConversationHistory(sessionId);
    if history.Failure? {
      return "Summary generation failed: " + history.error;
    }
    var events := history.value;
    if events == [] {
      return NoConversation;
    }
    var text := Transcript(events);
    var reply := summarise(text);
    if reply.Failure? {
      return "Summary generation failed: " + reply.error;
    }
    s := reply.value;
  }

  // ---------------------------------------------------------------- the end of a session

  /** The update storing a generated title. */
  function NameUpdate(name: string): Store.SessionUpdate {
    Store.SessionUpdate(Store.Unchanged, Store.Unchanged, Store.Unchanged, Store.Unchanged, Store.Put(name))
  }

  /** The dictionary `process_session_end` returns. */
  datatype EndReport =
    | Dropped(sessionId: Uuid, deleted: bool)
    | Finished(sessionId: Uuid, name: Option<string>, summary: string, durationSeconds: int, endTime: int)
    | Failed(sessionId: Uuid, error: string)
  {
    function Status(): string {
      match this
      case Dropped(_, deleted) => if deleted then "deleted" else "delete_failed"
      case Finished(_, _, _, _, _) => "completed"
      case Failed(_, _) => "error"
    }

    /** The report as the JSON object returned; `iso` renders the end time. */
    function ToJson(iso: int -> string): (d: Dict)
      ensures "status" in d && d["status"] == JString(Status())
      ensures "session_id" in d && d["session_id"] == JString(sessionId)
      ensures Dropped? ==> "reason" in d && d["reason"] == JString("empty_session") && "summary" !in d
      ensures Finished? ==> "duration_seconds" in d && d["duration_seconds"] == JNumber(durationSeconds)
    {
      match this
      case Dropped(id, _) =>
        map["session_id" := JString(id), "status" := JString(Status()), "reason" := JString("empty_session")]
      case Finished(id, name, summary, duration, endTime) =>
        map["session_id" := JString(id),
            "name" := (if name.Some? then JString(name.value) else JNull),
            "summary" := JString(summary),
            "duration_seconds" := JNumber(duration),
            "end_time" := JString(iso(endTime)),
            "status" := JString("completed")]
      case Failed(id, error) =>
        map["session_id" := JString(id), "error" := JString(error), "status" := JString("error")]
    }
  }

  /**
   * What a finished report leaves in the session table: the session's row,
   * when there was one, is completed with the report's summary (or "No
   * summary available"), end time and duration, and carries its new name.
   */
  predicate Closed(before: map<Uuid, Store.SessionRow>, after: map<Uuid, Store.SessionRow>, r: EndReport)
    requires r.Finished?
  {
    r.sessionId in before ==>
      && r.sessionId in after
      && after[r.sessionId].status == Completed
      && after[r.sessionId].summary == Some(if r.summary != "" then r.summary else NoSummary)
      && after[r.sessionId].endTime == Some(r.endTime)
      && after[r.sessionId].durationSeconds == Some(r.durationSeconds)
      && after[r.sessionId].name == (if r.name.Some? then r.name else before[r.sessionId].name)
  }

  /** The session table after the naming step: only a non-empty summary names the session. */
  function Renamed(rows: map<Uuid, Store.SessionRow>, sessionId: Uuid, summary: string,
                   name: string -> Result<string, string>): map<Uuid, Store.SessionRow> {
    if summary != "" then Store.Updated(rows, sessionId, NameUpdate(GenerateChatName(summary, name(summary)))) else rows
  }

  /** The session table once naming and finalising have both gone through. */
  function Concluded(rows: map<Uuid, Store.SessionRow>, sessionId: Uuid, summary: string, now: int, duration: int,
                     name: string -> Result<string, string>): map<Uuid, Store.SessionRow> {
    Store.Updated(Renamed(rows, sessionId, summary, name), sessionId,
                  Store.FinalizeUpdate(if summary != "" then summary else NoSummary, now, duration))
  }

  /** Naming and then finalising a session leaves its row closed as the finished report says. */
  lemma ConcludedCloses(rows: map<Uuid, Store.SessionRow>, sessionId: Uuid, summary: string, now: int, duration: int,
                        name: string -> Result<string, string>)
    ensures var chatName := if summary != "" then Some(GenerateChatName(summary, name(summary))) else None;
      Closed(rows, Concluded(rows, sessionId, summary, now, duration, name), Finished(sessionId, chatName, summary, duration, now))
  {
  }

  /**
   * The session table after the naming and finalising steps of a report that
   * did not drop the session: both went through for a finished report; for a
   * failed one, only the naming when the store answered one call (`named`).
   */
  predicate Settled(before: map<Uuid, Store.SessionRow>, after: map<Uuid, Store.SessionRow>, r: EndReport,
                    summary: string, now: int, duration: int, name: string -> Result<string, string>, named: bool)
  {
    after == if r.Finished? then Concluded(before, r.sessionId, summary, now, duration, name)
             else if named then Renamed(before, r.sessionId, summary, name)
             else before
  }

  /** The whole seconds from the start of a session to its end. */
  function Duration(startTime: int, now: int): int {
    now - startTime
  }

  /**
   * `process_session_end`: the duration is fixed first. A session with no
   * user messages (also what an unreachable store reports) is deleted and
   * nothing else happens. Otherwise the summary is generated; a non-empty
   * summary is named and the name stored; then the session is finalized with
   * the summary, or "No summary available". A failing store call gives an
   * error report; nothing is raised.
   */
  method ProcessSessionEnd(db: Store.Database, sessionId: Uuid, startTime: int, now: int,
                           summarise: string -> Result<string, string>, name: string -> Result<string, string>)
    returns (r: EndReport)
    modifies db`enabled, db`client, db`budget, db`sessions, db`events
    ensures r.sessionId == sessionId
    ensures var empty := !(old(db.Attempt()).1.Some? && old(db.Up())) || Store.UserMessageCount(old(db.events), sessionId) == 0;
      r.Dropped? <==> empty
    ensures old(db.Attempt()).1.None? ==> r == Dropped(sessionId, false) && db.sessions == old(db.sessions) && db.events == old(db.events)
    ensures r.Dropped? && r.deleted ==> sessionId in old(db.sessions) && db.sessions == old(db.sessions) - {sessionId}
                                        && db.events == Store.Without(old(db.events), {sessionId})
    ensures r.Finished? ==> && r.durationSeconds == now - startTime && r.endTime == now
                            && (r.name.Some? <==> r.summary != "")
                            && db.events == old(db.events)
    ensures r.Finished? ==> Closed(old(db.sessions), db.sessions, r)
    ensures r.Finished? ==>
              && r.summary == SummaryText(Success(Store.ConversationEvents(old(db.events), sessionId)), summarise)
              && r.name == if r.summary != "" then Some(GenerateChatName(r.summary, name(r.summary))) else None
    ensures old(db.Attempt()).1.Some? && old(db.budget).None? && Store.UserMessageCount(old(db.events), sessionId) > 0 ==> r.Finished?
    ensures r.Failed? ==> r.error == Store.StoreUnavailable
    ensures r.Dropped? && !r.deleted ==>
      db.sessions == old(db.sessions) && (db.events == old(db.events) || db.events == Store.Without(old(db.events), {sessionId}))
    ensures !r.Dropped? ==> db.events == old(db.events)
    ensures !r.Dropped? ==>
      Settled(old(db.sessions), db.sessions, r, SummaryText(Success(Store.ConversationEvents(old(db.events), sessionId)), summarise),
              now, Duration(startTime, now), name, Store.Lasts(old(db.budget), 3))
    ensures var summary := SummaryText(Success(Store.ConversationEvents(old(db.events), sessionId)), summarise);
      r.Finished? <==> && old(db.Attempt()).1.Some? && Store.UserMessageCount(old(db.events), sessionId) > 0
                       && Store.Lasts(old(db.budget), if summary != "" then 4 else 3)
    ensures r.Dropped? ==> (r.deleted <==> old(db.Attempt()).1.Some? && Store.Lasts(old(db.budget), 3) && sessionId in old(db.sessions))
    ensures r.Dropped? ==> db.sessions == if old(db.Attempt()).1.Some? && Store.Lasts(old(db.budget), 3)
                                         then old(db.sessions) - {sessionId} else old(db.sessions)
    ensures r.Dropped? ==> db.events == if old(db.Attempt()).1.Some? && Store.Lasts(old(db.budget), 2)
                                       then Store.Without(old(db.events), {sessionId}) else old(db.events)
    ensures (&& old(db.Attempt()).1.Some? && Store.Lasts(old(db.budget), 3) && sessionId in old(db.sessions)
             && Store.UserMessageCount(old(db.events), sessionId) == 0) ==> r == Dropped(sessionId, true)
  {
    var count := db.GetSessionMessageCount(sessionId);
    if count == 0 {
      r := DropCounted(db, sessionId, old(db.Attempt()).1.Some?, old(db.budget));
      return;
    }
    Store.ConnectIdempotent(old(db.State()), db.settings, db.accepts);
    Store.SpendLasts(old(db.budget), 2);
    Store.SpendLasts(old(db.budget), 3);
    r := SummariseAndConclude(db, sessionId, now, Duration(startTime, now), summarise, name);
  }

  /**
   * The empty-session branch seen from before the count: `budget0` is the
   * budget before it, which a reached store spent one unit of.
   */
  method DropCounted(db: Store.Database, sessionId: Uuid, ghost connected: bool, ghost budget0: Option<nat>)
    returns (r: EndReport)
    requires db.Attempt().1.Some? == connected
    requires db.budget == if connected then Store.Spend(budget0) else budget0
    modifies db`enabled, db`client, db`budget, db`sessions, db`events
    ensures r.Dropped? && r.sessionId == sessionId
    ensures r.deleted <==> connected && Store.Lasts(budget0, 3) && sessionId in old(db.sessions)
    ensures db.sessions == if connected && Store.Lasts(budget0, 3) then old(db.sessions) - {sessionId} else old(db.sessions)
    ensures db.events == if connected && Store.Lasts(budget0, 2)
                         then Store.Without(old(db.events), {sessionId}) else old(db.events)
  {
    if connected {
      Store.SpendLasts(budget0, 2);
      Store.SpendLasts(budget0, 1);
    }
    r := DropEmpty(db, sessionId);
  }

  /**
   * The branch of `process_session_end` for a session without user messages:
   * it is deleted, events first, and nothing is summarised.
   */
  method DropEmpty(db: Store.Database, sessionId: Uuid) returns (r: EndReport)
    modifies db`enabled, db`client, db`budget, db`sessions, db`events
    ensures r.Dropped? && r.sessionId == sessionId
    ensures old(db.Attempt()).1.None? ==> !r.deleted && db.sessions == old(db.sessions) && db.events == old(db.events)
    ensures r.deleted ==> sessionId in old(db.sessions) && db.sessions == old(db.sessions) - {sessionId}
                          && db.events == Store.Without(old(db.events), {sessionId})
    ensures !r.deleted ==>
      db.sessions == old(db.sessions) && (db.events == old(db.events) || db.events == Store.Without(old(db.events), {sessionId}))
    ensures r.deleted <==> old(db.Attempt()).1.Some? && Store.Lasts(old(db.budget), 2) && sessionId in old(db.sessions)
    ensures db.sessions == if old(db.Attempt()).1.Some? && Store.Lasts(old(db.budget), 2)
                           then old(db.sessions) - {sessionId} else old(db.sessions)
    ensures db.events == if old(db.Attempt()).1.Some? && old(db.Up())
                         then Store.Without(old(db.events), {sessionId}) else old(db.events)
  {
    var deleted := db.DeleteSession(sessionId);
    if !deleted && sessionId !in old(db.sessions) {
      assert old(db.sessions) - {sessionId} == old(db.sessions);
    }
    r := Dropped(sessionId, deleted);
  }

  /**
   * The part of `process_session_end` after the count, on a reached store:
   * the summary is generated from the conversation, then the session is
   * named and finalized.
   */
  method SummariseAndConclude(db: Store.Database, sessionId: Uuid, now: int, duration: int,
                              summarise: string -> Result<string, string>, name: string -> Result<string, string>)
    returns (r: EndReport)
    requires db.Attempt().1.Some?
    modifies db`enabled, db`client, db`budget, db`sessions
    ensures r.sessionId == sessionId && !r.Dropped?
    ensures r.Finished? ==>
              && old(db.Up()) && r.durationSeconds == duration && r.endTime == now
              && r.summary == SummaryText(Success(Store.ConversationEvents(old(db.events), sessionId)), summarise)
              && r.name == if r.summary != "" then Some(GenerateChatName(r.summary, name(r.summary))) else None
    ensures r.Finished? ==> Closed(old(db.sessions), db.sessions, r)
    ensures old(db.budget).None? ==> r.Finished?
    ensures r.Failed? ==> r.error == Store.StoreUnavailable
    ensures Settled(old(db.sessions), db.sessions, r, SummaryText(Success(Store.ConversationEvents(old(db.events), sessionId)), summarise),
                    now, duration, name, Store.Lasts(old(db.budget), 2))
    ensures var summary := SummaryText(Success(Store.ConversationEvents(old(db.events), sessionId)), summarise);
      r.Finished? <==> Store.Lasts(old(db.budget), if summary != "" then 3 else 2)
  {
    ghost var connected := db.Attempt();
    var summary := GenerateSessionSummary(db, sessionId, summarise);
    assert db.Attempt() == connected;
    Store.SpendLasts(old(db.budget), if summary != "" then 2 else 1);
    r := Conclude(db, sessionId, summary, now, duration, name);
  }

  /**
   * The last part of `process_session_end`, once the summary is known: name
   * the session when the summary is non-empty, then finalize it.
   */
  method Conclude(db: Store.Database, sessionId: Uuid, summary: string, now: int, duration: int,
                  name: string -> Result<string, string>)
    returns (r: EndReport)
    modifies db`enabled, db`client, db`budget, db`sessions
    ensures r.sessionId == sessionId && !r.Dropped?
    ensures r.Finished? ==> && r.durationSeconds == duration && r.endTime == now && r.summary == summary
                            && (r.name.Some? <==> summary != "")
    ensures r.Finished? && old(db.Attempt()).1.Some? ==> Closed(old(db.sessions), db.sessions, r)
    ensures r.Finished? ==> r.name == if summary != "" then Some(GenerateChatName(summary, name(summary))) else None
    ensures r.Finished? <==> old(db.Attempt()).1.None? || Store.Lasts(old(db.budget), if summary != "" then 2 else 1)
    ensures r.Failed? ==> r.error == Store.StoreUnavailable
    ensures old(db.Attempt()).1.None? ==> db.sessions == old(db.sessions)
    ensures old(db.Attempt()).1.Some? ==>
      Settled(old(db.sessions), db.sessions, r, summary, now, duration, name, Store.Lasts(old(db.budget), 1))
  {
    ghost var connected := old(db.Attempt()).1.Some?;
    var chatName: Option<string> := None;
    if summary != "" {
      var title := GenerateChatName(summary, name(summary));
      chatName := Some(title);
      var named := db.UpdateSession(sessionId, NameUpdate(title));
      if named.Failure? {
        return Failed(sessionId, named.error);
      }
      Store.ConnectIdempotent(old(db.State()), db.settings, db.accepts);
      Store.SpendLasts(old(db.budget), 1);
    }
    assert db.Attempt().1.Some? == connected;
    assert db.sessions == if connected then Renamed(old(db.sessions), sessionId, summary, name) else old(db.sessions);
    r := Finish(db, sessionId, chatName, summary, now, duration);
    if r.Finished? {
      ConcludedCloses(old(db.sessions), sessionId, summary, now, duration, name);
    }
  }

  /** The finalising step of `Conclude`, once the naming step has gone through. */
  method Finish(db: Store.Database, sessionId: Uuid, chatName: Option<string>, summary: string, now: int, duration: int)
    returns (r: EndReport)
    modifies db`enabled, db`client, db`budget, db`sessions
    ensures db.State() == old(db.Attempt()).0
    ensures db.budget == if old(db.Attempt()).1.Some? then Store.Spend(old(db.budget)) else old(db.budget)
    ensures r.Finished? <==> old(db.Attempt()).1.None? || old(db.Up())
    ensures r.Finished? ==> r == Finished(sessionId, chatName, summary, duration, now)
    ensures !r.Finished? ==> r == Failed(sessionId, Store.StoreUnavailable)
    ensures db.sessions == if old(db.Attempt()).1.Some? && old(db.Up())
                           then Store.Updated(old(db.sessions), sessionId,
                                              Store.FinalizeUpdate(if summary != "" then summary else NoSummary, now, duration))
                           else old(db.sessions)
  {
    var finalized := db.FinalizeSession(sessionId, if summary != "" then summary else NoSummary, now, duration);
    if finalized.Failure? {
      return Failed(sessionId, finalized.error);
    }
    r := Finished(sessionId, chatName, summary, duration, now);
  }

  /** The post-processing jobs scheduled so far: a session and its start time each. */
  class Scheduler {
    var pending: seq<(Uuid, int)>

    constructor ()
      ensures pending == []
    {
      pending := [];
    }

    /** `schedule_post_processing`: queues `process_session_end` for the session, to run later. */
    method SchedulePostProcessing(sessionId: Uuid, startTime: int)
      modifies this
      ensures pending == old(pending) + [(sessionId, startTime)]
    {
      pending := pending + [(sessionId, startTime)];
    }
  }
}
