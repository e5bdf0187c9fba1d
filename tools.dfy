/**
 * The tool registry (app/llm/tools.py and `execute_tool` in app/agent.py):
 * dispatch by tool name, argument validation as the tool wrapper performs it,
 * the knowledge-base search over its fixed table, and the result shape of the
 * calculator. The weather and clock tools, and the calculator's evaluator, are
 * supplied from outside as uninterpreted functions.
 */
module Tools {
  import opened Wrappers
  import opened Models
  import Strings

  // ---------------------------------------------------------------- knowledge search

  datatype KnowledgeEntry = KnowledgeEntry(title: string, content: string, category: string) {
    function ToJson(): Json {
      JObject(map["title" := JString(title), "content" := JString(content), "category" := JString(category)])
    }
  }

  /** A table of (key, entry) rows in declaration order. */
  type Table = seq<(string, KnowledgeEntry)>

  /** The fixed knowledge base of `search_knowledge`, in declaration order. */
  const KnowledgeBase: Table := [
    ("python", KnowledgeEntry(
      "Python Programming Language",
      "Python is a high-level, interpreted programming language known for its simplicity and readability. Created by Guido van Rossum and first released in 1991.",
      "technology")),
    ("machine learning", KnowledgeEntry(
      "Machine Learning",
      "Machine Learning is a subset of AI that enables systems to learn and improve from experience. Key types include supervised, unsupervised, and reinforcement learning.",
      "technology")),
    ("websocket", KnowledgeEntry(
      "WebSocket Protocol",
      "WebSocket is a communication protocol providing full-duplex channels over a single TCP connection. Ideal for real-time applications like chat and live updates.",
      "technology")),
    ("climate", KnowledgeEntry(
      "Climate Change",
      "Climate change refers to long-term shifts in temperatures and weather patterns. Human activities, particularly burning fossil fuels, are the main driver since the 1800s.",
      "science")),
    ("renaissance", KnowledgeEntry(
      "The Renaissance",
      "The Renaissance was a cultural movement from the 14th to 17th century, beginning in Italy. It marked the transition from medieval to modern times.",
      "history"))
  ]

  /** A row is a candidate when the lowered query is inside its key or its key is inside the lowered query. */
  predicate IsCandidate(key: string, queryLower: string) {
    Strings.Contains(key, queryLower) || Strings.Contains(queryLower, key)
  }

  /** A candidate is kept when the category is "general" or equals the entry's category. */
  predicate Selected(row: (string, KnowledgeEntry), queryLower: string, category: string) {
    IsCandidate(row.0, queryLower) && (category == "general" || row.1.category == category)
  }

  /** Positions, among the first `n` rows of `table`, of the rows the search keeps. */
  function Hits(table: Table, n: nat, queryLower: string, category: string): (r: seq<nat>)
    requires n <= |table|
    ensures forall i :: 0 <= i < |r| ==> r[i] < n
  {
    if n == 0 then []
    else Hits(table, n - 1, queryLower, category)
         + (if Selected(table[n - 1], queryLower, category) then [n - 1] else [])
  }

  /** `Hits` lists exactly the kept rows, each once, in strictly increasing (declaration) order. */
  lemma {:induction false} HitsExact(table: Table, n: nat, queryLower: string, category: string)
    requires n <= |table|
    ensures var h := Hits(table, n, queryLower, category);
            && (forall i, j :: 0 <= i < j < |h| ==> h[i] < h[j])
            && (forall i :: 0 <= i < |h| ==> h[i] < n && Selected(table[h[i]], queryLower, category))
            && (forall k :: 0 <= k < n && Selected(table[k], queryLower, category) ==> k in h)
  {
    if n > 0 {
      var prev := Hits(table, n - 1, queryLower, category);
      HitsExact(table, n - 1, queryLower, category);
      var h := Hits(table, n, queryLower, category);
      assert h == prev + (if Selected(table[n - 1], queryLower, category) then [n - 1] else []);
      forall i | 0 <= i < |h|
        ensures h[i] < n && Selected(table[h[i]], queryLower, category)
      {
        if i < |prev| { assert h[i] == prev[i]; }
      }
    }
  }

  /** The entries at the given positions, in that order. */
  function EntriesAt(table: Table, positions: seq<nat>): (r: seq<KnowledgeEntry>)
    requires forall i :: 0 <= i < |positions| ==> positions[i] < |table|
    ensures |r| == |positions|
    ensures forall i :: 0 <= i < |r| ==> r[i] == table[positions[i]].1
  {
    seq(|positions|, i requires 0 <= i < |positions| => table[positions[i]].1)
  }

  /** The single entry returned when nothing matches. */
  function Fallback(query: string, category: string): KnowledgeEntry {
    KnowledgeEntry(
      "Search results for: " + query,
      "I found some information about '" + query + "'. This is a simulated knowledge base response demonstrating the tool calling capability.",
      category)
  }

  datatype SearchResponse = SearchResponse(query: string, category: string, results: seq<KnowledgeEntry>, resultCount: int) {
    function ToJson(): Json {
      JObject(map[
        "query" := JString(query),
        "category" := JString(category),
        "results" := JList(seq(|results|, i requires 0 <= i < |results| => results[i].ToJson())),
        "result_count" := JNumber(resultCount)])
    }
  }

  /** The entries of `table` the search keeps, in declaration order. */
  function Matches(table: Table, query: string, category: string): (r: seq<KnowledgeEntry>)
    ensures category != "general" ==> forall i :: 0 <= i < |r| ==> r[i].category == category
  {
    HitsExact(table, |table|, Strings.Lower(query), category);
    EntriesAt(table, Hits(table, |table|, Strings.Lower(query), category))
  }

  /**
   * What `search_knowledge(query, category)` returns over `table`: the echoed
   * query and category, the matches or else the one fallback entry, and their
   * count.
   */
  function Search(table: Table, query: string, category: string): (r: SearchResponse)
    ensures r.query == query && r.category == category
    ensures r.resultCount == |r.results| >= 1
    ensures category != "general" ==> forall i :: 0 <= i < |r.results| ==> r.results[i].category == category
    ensures Matches(table, query, category) == [] ==> r.results == [Fallback(query, category)]
    ensures Matches(table, query, category) != [] ==> r.results == Matches(table, query, category)
  {
    var matched := Matches(table, query, category);
    var results := if matched == [] then [Fallback(query, category)] else matched;
    SearchResponse(query, category, results, |results|)
  }

  /** An entry of the table is returned exactly when it is kept by the search. */
  lemma SearchReturnsSelected(table: Table, query: string, category: string, k: nat)
    requires k < |table|
    ensures Selected(table[k], Strings.Lower(query), category)
            ==> table[k].1 in Search(table, query, category).results
  {
    var h := Hits(table, |table|, Strings.Lower(query), category);
    HitsExact(table, |table|, Strings.Lower(query), category);
    if Selected(table[k], Strings.Lower(query), category) {
      var i :| 0 <= i < |h| && h[i] == k;
      assert Matches(table, query, category)[i] == table[k].1;
    }
  }

  /** One more row extends the kept entries by that row's entry exactly when it is kept. */
  lemma EntriesAtStep(table: Table, n: nat, queryLower: string, category: string)
    requires n < |table|
    ensures EntriesAt(table, Hits(table, n + 1, queryLower, category))
            == EntriesAt(table, Hits(table, n, queryLower, category))
               + (if Selected(table[n], queryLower, category) then [table[n].1] else [])
  {
  }

  /** `search_knowledge`: scans the table in order, collecting the kept entries. */
  method SearchKnowledge(query: string, category: string := "general") returns (r: SearchResponse)
    ensures r == Search(KnowledgeBase, query, category)
  {
    var table := KnowledgeBase;
    var queryLower := Strings.Lower(query);
    var results: seq<KnowledgeEntry> := [];
    var i := 0;
    while i < |table|
      invariant 0 <= i <= |table|
      invariant results == EntriesAt(table, Hits(table, i, queryLower, category))
    {
      EntriesAtStep(table, i, queryLower, category);
      var (key, info) := table[i];
      if IsCandidate(key, queryLower) {
        if category == "general" || info.category == category {
          results := results + [info];
        }
      }
      i := i + 1;
    }
    assert results == Matches(table, query, category);
    if results == [] {
      results := [Fallback(query, category)];
    }
    r := SearchResponse(query, category, results, |results|);
  }

  // ---------------------------------------------------------------- calculator

  /** The result dictionary of `calculate`, with the evaluator's outcome. */
  datatype CalcResult = CalcOk(expression: string, result: Json) | CalcFailed(expression: string, error: string) {
    function ToJson(): (j: Json)
      ensures j.JObject? && "expression" in j.fields && j.fields["expression"] == JString(expression)
      ensures "success" in j.fields && j.fields["success"] == JBool(CalcOk?)
    {
      match this
      case CalcOk(e, v) => JObject(map["expression" := JString(e), "result" := v, "success" := JBool(true)])
      case CalcFailed(e, m) => JObject(map["expression" := JString(e), "error" := JString(m), "success" := JBool(false)])
    }
  }

  /** `calculate`: never raises; a failing evaluation becomes data carrying the error text. */
  function Calculate(expression: string, evaluate: string -> Result<Json, string>): (r: CalcResult)
    ensures r.expression == expression
    ensures r.CalcOk? <==> evaluate(expression).Success?
    ensures r.CalcOk? ==> r.result == evaluate(expression).value
    ensures r.CalcFailed? ==> r.error == evaluate(expression).error
  {
    match evaluate(expression)
    case Success(v) => CalcOk(expression, v)
    case Failure(e) => CalcFailed(expression, e)
  }

  // ---------------------------------------------------------------- dispatch

  /** The behaviour of the tools whose bodies are outside the model. */
  datatype Toolkit = Toolkit(
    weather: string -> Json,                 // get_weather(location): random readings
    evaluate: string -> Result<Json, string>, // the restricted `eval` of calculate
    currentTime: string -> Json)             // get_current_time(timezone): wall clock

  const RegisteredTools: set<string> := {"get_weather", "calculate", "search_knowledge", "get_current_time"}

  /** The text of the validation error a tool raises for a bad argument mapping. */
  function ValidationError(tool: string): string {
    "1 validation error for " + tool
  }

  /** Binding one `str` parameter of a tool: absent takes the default, a non-string is rejected. */
  function StringArg(args: Dict, key: string, default: Option<string>, tool: string): (r: Result<string, string>)
    ensures key in args && args[key].JString? ==> r == Success(args[key].s)
    ensures key !in args && default.Some? ==> r == Success(default.value)
    ensures r.Failure? <==> (key in args && !args[key].JString?) || (key !in args && default.None?)
  {
    if key in args then
      (match args[key] case JString(s) => Success(s) case _ => Failure(ValidationError(tool)))
    else if default.Some? then Success(default.value)
    else Failure(ValidationError(tool))
  }

  function UnknownTool(name: string): Json {
    JObject(map["error" := JString("Unknown tool: " + name)])
  }

  /** What `execute_tool(name, args)` returns, or the text of what it raises. */
  function ToolSpec(name: string, args: Dict, kit: Toolkit): Result<Json, string> {
    if name == "get_weather" then
      match StringArg(args, "location", None, name)
      case Success(location) => Success(kit.weather(location))
      case Failure(e) => Failure(e)
    else if name == "calculate" then
      match StringArg(args, "expression", None, name)
      case Success(expression) => Success(Calculate(expression, kit.evaluate).ToJson())
      case Failure(e) => Failure(e)
    else if name == "search_knowledge" then
      match StringArg(args, "query", None, name)
      case Failure(e) => Failure(e)
      case Success(query) =>
        match StringArg(args, "category", Some("general"), name)
        case Success(category) => Success(Search(KnowledgeBase, query, category).ToJson())
        case Failure(e) => Failure(e)
    else if name == "get_current_time" then
      match StringArg(args, "timezone", Some("UTC"), name)
      case Success(timezone) => Success(kit.currentTime(timezone))
      case Failure(e) => Failure(e)
    else
      Success(UnknownTool(name))
  }

  /**
   * `execute_tool`: each registered name reaches its own tool; any other name
   * yields the unknown-tool error as data and never raises.
   */
  method ExecuteTool(name: string, args: Dict, kit: Toolkit) returns (r: Result<Json, string>)
    ensures r == ToolSpec(name, args, kit)
    ensures name !in RegisteredTools ==> r == Success(UnknownTool(name))
    ensures r.Failure? ==> name in RegisteredTools && r.error == ValidationError(name)
    ensures name == "get_weather" && "location" in args && args["location"].JString?
            ==> r == Success(kit.weather(args["location"].s))
    ensures name == "calculate" && "expression" in args && args["expression"].JString?
            ==> r == Success(Calculate(args["expression"].s, kit.evaluate).ToJson())
    ensures name == "get_current_time" && "timezone" !in args ==> r == Success(kit.currentTime("UTC"))
  {
    if name == "get_weather" {
      var location := StringArg(args, "location", None, name);
      r := if location.Success? then Success(kit.weather(location.value)) else Failure(location.error);
    } else if name == "calculate" {
      var expression := StringArg(args, "expression", None, name);
      r := if expression.Success? then Success(Calculate(expression.value, kit.evaluate).ToJson()) else Failure(expression.error);
    } else if name == "search_knowledge" {
      var query := StringArg(args, "query", None, name);
      var category := StringArg(args, "category", Some("general"), name);
      if query.Failure? {
        r := Failure(query.error);
      } else if category.Failure? {
        r := Failure(category.error);
      } else {
        var response := SearchKnowledge(query.value, category.value);
        r := Success(response.ToJson());
      }
    } else if name == "get_current_time" {
      var timezone := StringArg(args, "timezone", Some("UTC"), name);
      r := if timezone.Success? then Success(kit.currentTime(timezone.value)) else Failure(timezone.error);
    } else {
      r := Success(UnknownTool(name));
    }
  }
}
