/** Rebuilding the model's history from stored chat rows (engine/app/api/feishu.py, lines 211-222 and 249-302). */
module History {
  import opened Results
  import opened Json

  datatype Row = Row(id: string, role: string, content: string)

  /** `ToolCall` is an assistant message with one tool call, `ToolResult` the tool message that answers it. */
  datatype Message =
    | ToolCall(callId: string, name: string, arguments: string)
    | ToolResult(callId: string, content: string)
    | Plain(role: string, content: string)

  /** Python's JSON reader, its writer and `str`, on the values a stored payload may hold. */
  datatype Python = Python(
    loads: string -> Option<Json>,
    dumps: Object -> string,
    str: Json -> string)

  const ALLOWED_ROLES := {"system", "assistant", "user", "tool", "function"}
  const REPLAYED_ROLES := {"system", "assistant", "user", "tool"}

  function Role(m: Message): string {
    match m
    case ToolCall(_, _, _) => "assistant"
    case ToolResult(_, _) => "tool"
    case Plain(role, _) => role
  }

  /** The stored payload; text that is not JSON, or not an object, counts as an empty one. */
  function Payload(py: Python, content: string): Object {
    match py.loads(if content == "" then "{}" else content)
    case Some(Obj(fields)) => fields
    case _ => map[]
  }

  predicate Truthy(value: Json) {
    match value
    case Null => false
    case Bool(b) => b
    case Number(n) => n != 0.0
    case Str(s) => s != ""
    case Arr(items) => items != []
    case Obj(fields) => fields != map[]
  }

  /** `payload.get(key)` when it is truthy. */
  function Field(payload: Object, key: string): Option<Json> {
    if key in payload && Truthy(payload[key]) then Some(payload[key]) else None
  }

  /** `payload.get("tool_name") or payload.get("name")`, whose second part counts even when it is falsy. */
  function ToolName(payload: Object): string {
    var named := Field(payload, "tool_name");
    if named.Some? then (if named.value.Str? then named.value.s else "unknown_tool")
    else if "name" in payload && payload["name"].Str? then payload["name"].s
    else "unknown_tool"
  }

  /** `payload.get("arguments") or payload.get("args") or {}`; an object is written as JSON, anything else as `str`. */
  function Arguments(py: Python, payload: Object): string {
    var arguments, args := Field(payload, "arguments"), Field(payload, "args");
    match if arguments.Some? then arguments else args
    case None => py.dumps(map[])
    case Some(Obj(fields)) => py.dumps(fields)
    case Some(other) => py.str(other)
  }

  function ResultText(py: Python, payload: Object): string {
    match Field(payload, "result")
    case None => ""
    case Some(value) => py.str(value)
  }

  /** Any stored text is kept, the empty one included; only a missing or non-text id is replaced. */
  function CallId(payload: Object, rowId: string): string {
    if "tool_call_id" in payload && payload["tool_call_id"].Str? then payload["tool_call_id"].s
    else "feishu-tool-" + rowId
  }

  /** What one row contributes. */
  function Expand(py: Python, row: Row): seq<Message> {
    if row.role == "tool_call" then
      var payload := Payload(py, row.content);
      var callId := CallId(payload, row.id);
      [ToolCall(callId, ToolName(payload), Arguments(py, payload)),
       ToolResult(callId, ResultText(py, payload))]
    else if row.role in REPLAYED_ROLES then [Plain(row.role, row.content)]
    else []
  }

  function Rebuilt(py: Python, rows: seq<Row>): seq<Message> {
    if rows == [] then [] else Expand(py, rows[0]) + Rebuilt(py, rows[1..])
  }

  lemma {:induction false} RebuiltConcat(py: Python, a: seq<Row>, b: seq<Row>)
    ensures Rebuilt(py, a + b) == Rebuilt(py, a) + Rebuilt(py, b)
  {
    if a == [] {
      assert a + b == b;
    } else {
      assert (a + b)[1..] == a[1..] + b;
      RebuiltConcat(py, a[1..], b);
    }
  }

  /** The appending loop computes the concatenation of the rows' expansions. */
  method BuildHistory(py: Python, rows: seq<Row>) returns (history: seq<Message>)
    ensures history == Rebuilt(py, rows)
  {
    history := [];
    for i := 0 to |rows|
      invariant history == Rebuilt(py, rows[..i])
    {
      var row := rows[i];
      RebuiltConcat(py, rows[..i], [row]);
      assert rows[..i + 1] == rows[..i] + [row];
      assert Rebuilt(py, [row]) == Expand(py, row) + Rebuilt(py, [row][1..]);
      if row.role == "tool_call" {
        var payload := Payload(py, row.content);
        var callId := CallId(payload, row.id);
        history := history + [ToolCall(callId, ToolName(payload), Arguments(py, payload))];
        history := history + [ToolResult(callId, ResultText(py, payload))];
        continue;
      }
      if row.role in REPLAYED_ROLES {
        history := history + [Plain(row.role, row.content)];
      }
    }
    assert rows[..|rows|] == rows;
  }

  // ----- What a row becomes -----

  /** The rows that are replayed as they are. */
  function PlainRows(rows: seq<Row>): seq<Message> {
    if rows == [] then []
    else
      var role := rows[0].role;
      (if role == "system" || role == "assistant" || role == "user" || role == "tool"
       then [Plain(role, rows[0].content)] else [])
      + PlainRows(rows[1..])
  }

  function Plains(history: seq<Message>): seq<Message> {
    if history == [] then []
    else (if history[0].Plain? then [history[0]] else []) + Plains(history[1..])
  }

  lemma {:induction false} PlainsConcat(a: seq<Message>, b: seq<Message>)
    ensures Plains(a + b) == Plains(a) + Plains(b)
  {
    if a == [] {
      assert a + b == b;
    } else {
      var first, rest := if a[0].Plain? then [a[0]] else [], a[1..];
      assert (a + b)[1..] == rest + b && (a + b)[0] == a[0];
      PlainsConcat(rest, b);
      assert Plains(a + b) == first + (Plains(rest) + Plains(b));
    }
  }

  lemma ExpandPlains(py: Python, row: Row)
    ensures Plains(Expand(py, row)) == PlainRows([row])
  {
    assert [row][1..] == [];
    if row.role == "tool_call" {
      var pair := Expand(py, row);
      assert pair[1..] == [pair[1]] && pair[1..][1..] == [];
      assert Plains(pair[1..]) == [];
    } else if row.role in REPLAYED_ROLES {
      assert Expand(py, row) == [Plain(row.role, row.content)] && Expand(py, row)[1..] == [];
    }
  }

  /** Apart from calls and their results, a rebuilt history is the rows of the four roles, unchanged and in order. */
  lemma {:induction false} PlainsAreRows(py: Python, rows: seq<Row>)
    ensures Plains(Rebuilt(py, rows)) == PlainRows(rows)
  {
    if rows != [] {
      PlainsAreRows(py, rows[1..]);
      ExpandPlains(py, rows[0]);
      PlainsConcat(Expand(py, rows[0]), Rebuilt(py, rows[1..]));
      assert [rows[0]][1..] == [];
    }
  }

  predicate IsText(payload: Object, key: string) {
    key in payload && payload[key].Str?
  }

  /** The key is missing or its value counts as false. */
  predicate Unset(payload: Object, key: string) {
    key !in payload || payload[key] in {Null, Bool(false), Number(0.0), Str(""), Arr([]), Obj(map[])}
  }

  /** A stored call is replayed under its own id or the row's, with the name and the arguments of either schema; the
      first of two alternatives counts unless it is unset. */
  lemma CallRowReplayed(py: Python, row: Row, payload: Object)
    requires row.role == "tool_call" && row.content != "" && py.loads(row.content) == Some(Obj(payload))
    ensures var history := Expand(py, row);
            && |history| == 2 && history[0].ToolCall? && history[1].ToolResult?
            && history[0].callId == history[1].callId
            && history[0].callId == (if IsText(payload, "tool_call_id") then payload["tool_call_id"].s
                                     else "feishu-tool-" + row.id)
            && history[0].name == (if !Unset(payload, "tool_name") && IsText(payload, "tool_name")
                                   then payload["tool_name"].s
                                   else if Unset(payload, "tool_name") && IsText(payload, "name")
                                   then payload["name"].s else "unknown_tool")
            && (Unset(payload, "arguments") && Unset(payload, "args") ==> history[0].arguments == py.dumps(map[]))
            && (forall key | key == "arguments" || (key == "args" && Unset(payload, "arguments")) ::
                  !Unset(payload, key) ==>
                    history[0].arguments == if payload[key].Obj? then py.dumps(payload[key].fields)
                                            else py.str(payload[key]))
            && history[1].content == if Unset(payload, "result") then "" else py.str(payload["result"])
  {
    assert forall key :: Unset(payload, key) <==> Field(payload, key).None?;
  }

  /** A payload that cannot be read counts as an empty one. */
  lemma UnreadableCallReplayed(py: Python, row: Row)
    requires row.role == "tool_call"
    requires var read := py.loads(if row.content == "" then "{}" else row.content); read.None? || !read.value.Obj?
    ensures var id := "feishu-tool-" + row.id;
            Expand(py, row) == [ToolCall(id, "unknown_tool", py.dumps(map[])), ToolResult(id, "")]
  {
  }

  // ----- Saving a call and replaying it -----

  /** The payload save_tool_call_log stores (engine/app/services/chat_session_service.py, lines 41-74). */
  function SavedPayload(name: string, arguments: Object, status: string, result: string,
                        callId: Option<string>, reasoning: Option<string>): Object {
    map["name" := Str(name), "args" := Obj(arguments), "status" := Str(status), "result" := Str(result),
        "tool_call_id" := if callId.Some? then Str(callId.value) else Null,
        "reasoning_content" := if reasoning.Some? then Str(reasoning.value) else Null]
  }

  lemma SavedFields(py: Python, name: string, arguments: Object, status: string, result: string,
                    callId: Option<string>, reasoning: Option<string>)
    requires forall text :: py.str(Str(text)) == text
    ensures var saved := SavedPayload(name, arguments, status, result, callId, reasoning);
            ToolName(saved) == name && Arguments(py, saved) == py.dumps(arguments) && ResultText(py, saved) == result
  {
    var saved := SavedPayload(name, arguments, status, result, callId, reasoning);
    assert "tool_name" !in saved && "arguments" !in saved;
    assert saved["name"] == Str(name) && saved["args"] == Obj(arguments) && saved["result"] == Str(result);
  }

  /** A saved call comes back with its name, its arguments, its result and its id; without an id, under the row's. */
  lemma SavedCallReplayed(py: Python, rowId: string, name: string, arguments: Object, status: string,
                          result: string, callId: Option<string>, reasoning: Option<string>)
    requires var saved := SavedPayload(name, arguments, status, result, callId, reasoning);
             py.dumps(saved) != "" && py.loads(py.dumps(saved)) == Some(Obj(saved))
    requires forall text :: py.str(Str(text)) == text
    ensures var content := py.dumps(SavedPayload(name, arguments, status, result, callId, reasoning));
            var id := if callId.Some? then callId.value else "feishu-tool-" + rowId;
            Expand(py, Row(rowId, "tool_call", content)) ==
            [ToolCall(id, name, py.dumps(arguments)), ToolResult(id, result)]
  {
    var saved := SavedPayload(name, arguments, status, result, callId, reasoning);
    var row := Row(rowId, "tool_call", py.dumps(saved));
    SavedFields(py, name, arguments, status, result, callId, reasoning);
    assert Payload(py, row.content) == saved;
    assert Expand(py, row) == [ToolCall(CallId(saved, rowId), ToolName(saved), Arguments(py, saved)),
                               ToolResult(CallId(saved, rowId), ResultText(py, saved))];
  }

  // ----- What a model accepts -----

  /** Each call is answered by the next message, under its id. */
  ghost predicate CallsAnswered(history: seq<Message>) {
    forall i | 0 <= i < |history| && history[i].ToolCall? ::
      i + 1 < |history| && history[i + 1].ToolResult? && history[i + 1].callId == history[i].callId
  }

  /** Each tool message answers the call just before it, under its id. */
  ghost predicate ResultsCalled(history: seq<Message>) {
    forall i | 0 <= i < |history| && Role(history[i]) == "tool" ::
      history[i].ToolResult? && i > 0 && history[i - 1].ToolCall? && history[i - 1].callId == history[i].callId
  }

  lemma CallsAnsweredConcat(a: seq<Message>, b: seq<Message>)
    requires CallsAnswered(a) && CallsAnswered(b)
    ensures CallsAnswered(a + b)
  {
    var both := a + b;
    forall i | 0 <= i < |both| && both[i].ToolCall?
      ensures i + 1 < |both| && both[i + 1].ToolResult? && both[i + 1].callId == both[i].callId
    {
      if i < |a| { assert a[i].ToolCall?; } else { assert b[i - |a|].ToolCall?; }
    }
  }

  /** Behind a prefix whose calls are answered, a history keeps its tool messages called, and the other way round. */
  lemma ResultsCalledConcat(a: seq<Message>, b: seq<Message>)
    requires CallsAnswered(a)
    ensures ResultsCalled(a + b) <==> ResultsCalled(a) && ResultsCalled(b)
  {
    var both := a + b;
    assert forall i | 0 <= i < |a| :: both[i] == a[i];
    assert forall i | 0 <= i < |b| :: both[|a| + i] == b[i];
    if ResultsCalled(both) {
      forall i | 0 <= i < |b| && Role(b[i]) == "tool"
        ensures b[i].ToolResult? && i > 0 && b[i - 1].ToolCall? && b[i - 1].callId == b[i].callId
      {
        assert Role(both[|a| + i]) == "tool" && both[|a| + i - 1].ToolCall?;
      }
    }
    if ResultsCalled(a) && ResultsCalled(b) {
      forall i | 0 <= i < |both| && Role(both[i]) == "tool"
        ensures both[i].ToolResult? && i > 0 && both[i - 1].ToolCall? && both[i - 1].callId == both[i].callId
      {
        if i >= |a| { assert Role(b[i - |a|]) == "tool"; }
      }
    }
  }

  lemma ExpandPairs(py: Python, row: Row)
    ensures CallsAnswered(Expand(py, row))
    ensures ResultsCalled(Expand(py, row)) <==> row.role != "tool"
  {
    if row.role == "tool" {
      assert Expand(py, row) == [Plain("tool", row.content)] && Role(Expand(py, row)[0]) == "tool";
    }
  }

  lemma {:induction false} RebuiltCallsAnswered(py: Python, rows: seq<Row>)
    ensures CallsAnswered(Rebuilt(py, rows))
  {
    if rows != [] {
      ExpandPairs(py, rows[0]);
      RebuiltCallsAnswered(py, rows[1..]);
      CallsAnsweredConcat(Expand(py, rows[0]), Rebuilt(py, rows[1..]));
    }
  }

  /** Every tool message of a rebuilt history answers the call just before it exactly when no stored row has the role
      "tool" itself: such a row is replayed without a call. */
  lemma {:induction false} RebuiltResultsCalledIff(py: Python, rows: seq<Row>)
    ensures ResultsCalled(Rebuilt(py, rows)) <==> forall row | row in rows :: row.role != "tool"
  {
    if rows != [] {
      var first, rest := Expand(py, rows[0]), Rebuilt(py, rows[1..]);
      ExpandPairs(py, rows[0]);
      ResultsCalledConcat(first, rest);
      RebuiltResultsCalledIff(py, rows[1..]);
      assert rows == [rows[0]] + rows[1..];
    }
  }

  lemma ToolRowStandsAlone(py: Python)
    ensures Rebuilt(py, [Row("1", "tool", "x")]) == [Plain("tool", "x")]
    ensures !ResultsCalled(Rebuilt(py, [Row("1", "tool", "x")]))
  {
    RebuiltResultsCalledIff(py, [Row("1", "tool", "x")]);
  }

  /** The row each message of the rebuilt history comes from. */
  function Origins(py: Python, rows: seq<Row>, first: nat): seq<nat> {
    if rows == [] then []
    else seq(|Expand(py, rows[0])|, _ => first) + Origins(py, rows[1..], first + 1)
  }

  /** Row order is kept: every message is part of what one row contributes, and those rows come in order. */
  lemma {:induction false} RowOrderKept(py: Python, rows: seq<Row>, first: nat)
    ensures var from := Origins(py, rows, first);
            && |from| == |Rebuilt(py, rows)|
            && (forall j | 0 <= j < |from| ::
                  && first <= from[j] < first + |rows|
                  && Rebuilt(py, rows)[j] in Expand(py, rows[from[j] - first]))
            && (forall i, j | 0 <= i < j < |from| :: from[i] <= from[j])
  {
    if rows != [] {
      RowOrderKept(py, rows[1..], first + 1);
    }
  }

  // ----- Normalising -----

  function Normalized(history: seq<Message>): seq<Message> {
    if history == [] then []
    else (if Role(history[0]) in ALLOWED_ROLES then [history[0]] else []) + Normalized(history[1..])
  }

  lemma {:induction false} NormalizedConcat(a: seq<Message>, b: seq<Message>)
    ensures Normalized(a + b) == Normalized(a) + Normalized(b)
  {
    if a == [] {
      assert a + b == b;
    } else {
      assert (a + b)[1..] == a[1..] + b;
      NormalizedConcat(a[1..], b);
    }
  }

  method NormalizeHistory(history: seq<Message>) returns (normalized: seq<Message>)
    ensures normalized == Normalized(history)
  {
    normalized := [];
    for i := 0 to |history|
      invariant normalized == Normalized(history[..i])
    {
      NormalizedConcat(history[..i], [history[i]]);
      assert history[..i + 1] == history[..i] + [history[i]];
      assert Normalized([history[i]][1..]) == [];
      if Role(history[i]) !in ALLOWED_ROLES {
        continue;
      }
      normalized := normalized + [history[i]];
    }
    assert history[..|history|] == history;
  }

  /** Of every message normalising keeps all copies or none, by these five roles. */
  lemma {:induction false} NormalizedKeeps(history: seq<Message>, m: Message)
    ensures var role := Role(m);
            multiset(Normalized(history))[m] ==
            if role == "system" || role == "assistant" || role == "user" || role == "tool" || role == "function"
            then multiset(history)[m] else 0
  {
    if history != [] {
      NormalizedKeeps(history[1..], m);
      assert history == [history[0]] + history[1..];
    }
  }

  /** Normalising keeps exactly the histories whose roles are all allowed. */
  lemma {:induction false} NormalizedIdentity(history: seq<Message>)
    ensures |Normalized(history)| <= |history|
    ensures Normalized(history) == history <==> forall m | m in history :: Role(m) in ALLOWED_ROLES
  {
    if history != [] {
      var rest := history[1..];
      NormalizedIdentity(rest);
      assert history == [history[0]] + rest;
      if Normalized(history) == history {
        assert Role(history[0]) in ALLOWED_ROLES;
        assert Normalized(history)[1..] == Normalized(rest);
      }
    }
  }

  lemma {:induction false} RebuiltRoles(py: Python, rows: seq<Row>)
    ensures forall m | m in Rebuilt(py, rows) :: Role(m) in REPLAYED_ROLES
  {
    if rows != [] { RebuiltRoles(py, rows[1..]); }
  }

  /** Normalising a rebuilt history changes nothing. */
  lemma NormalizeRebuilt(py: Python, rows: seq<Row>)
    ensures Normalized(Rebuilt(py, rows)) == Rebuilt(py, rows)
  {
    RebuiltRoles(py, rows);
    NormalizedIdentity(Rebuilt(py, rows));
  }
}
