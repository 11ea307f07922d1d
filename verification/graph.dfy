/**
 * The web-search part of the workflow: the conditional edge after the model
 * node (the router, which decides whether the model's last message asks for
 * tools) and the tool node, which answers every `google_serper` call with a
 * tool message.
 */
module Graph {
  import opened Wrappers
  import opened JsonValues

  /** The name of the only tool the server runs. */
  const SERPER_TOOL := "google_serper"

  /** One tool call requested by the model: its name, its arguments and its id. */
  datatype ToolCall = ToolCall(name: string, args: map<string, Json>, id: string)

  /**
   * A message of the conversation state. `toolCalls` is None when the
   * message has no `tool_calls` attribute at all (a human or a tool message).
   */
  datatype Message = Message(toolCalls: Option<seq<ToolCall>>)

  /** Where the workflow goes after the model node. */
  datatype Route = ToToolNode | ToEnd

  /**
   * The answer to one tool call. `content` is the search result as a JSON
   * value; the server sends it on serialised with `json.dumps`.
   */
  datatype ToolMessage = ToolMessage(content: Json, toolCallId: string, name: string)

  /** `tools_router`: go to the tool node exactly when the last message asks for at least one tool. */
  function ToolsRouter(messages: seq<Message>): (route: Route)
    requires |messages| > 0
    ensures route == ToEnd <==>
      messages[|messages| - 1].toolCalls in {None, Some([])}
  {
    var last := messages[|messages| - 1];
    if last.toolCalls.Some? && |last.toolCalls.value| > 0 then ToToolNode else ToEnd
  }

  /** The `query` argument of a call, or the empty string when it has none. */
  function QueryArg(call: ToolCall): (query: Json)
    ensures query in call.args.Values || query == JString("")
    ensures "query" in call.args ==> query == call.args["query"]
    ensures "query" !in call.args ==> query == JString("")
  {
    Get(call.args, "query", JString(""))
  }

  /** The `google_serper` calls among `calls`, in call order. */
  function SearchCalls(calls: seq<ToolCall>): (r: seq<ToolCall>)
    ensures |r| <= |calls|
    ensures forall c :: c in r ==> c in calls && c.name == SERPER_TOOL
  {
    if calls == [] then []
    else (if calls[0].name == SERPER_TOOL then [calls[0]] else []) + SearchCalls(calls[1..])
  }

  /** Filtering commutes with concatenation: the search calls keep the order of the calls. */
  lemma {:induction false} SearchCallsAppend(a: seq<ToolCall>, b: seq<ToolCall>)
    ensures SearchCalls(a + b) == SearchCalls(a) + SearchCalls(b)
  {
    if a == [] {
      assert a + b == b;
    } else {
      assert (a + b)[0] == a[0];
      assert (a + b)[1..] == a[1..] + b;
      SearchCallsAppend(a[1..], b);
    }
  }

  /** There is no search call exactly when no call names `google_serper`. */
  lemma {:induction false} NoSearchCalls(calls: seq<ToolCall>)
    ensures SearchCalls(calls) == [] <==> forall c :: c in calls ==> c.name != SERPER_TOOL
  {
    if calls != [] {
      NoSearchCalls(calls[1..]);
      assert forall c :: c in calls ==> c == calls[0] || c in calls[1..];
    }
  }

  /** The first search call is the first call, in call order, that names `google_serper`. */
  lemma {:induction false} FirstSearchCall(calls: seq<ToolCall>) returns (k: nat)
    requires SearchCalls(calls) != []
    ensures k < |calls| && calls[k].name == SERPER_TOOL
    ensures forall j :: 0 <= j < k ==> calls[j].name != SERPER_TOOL
    ensures SearchCalls(calls)[0] == calls[k]
  {
    if calls[0].name == SERPER_TOOL {
      k := 0;
    } else {
      var rest := calls[1..];
      assert SearchCalls(calls) == SearchCalls(rest);
      var k' := FirstSearchCall(rest);
      k := k' + 1;
      assert calls[k] == rest[k'];
      forall j | 0 <= j < k
        ensures calls[j].name != SERPER_TOOL
      {
        if j > 0 { assert calls[j] == rest[j - 1]; }
      }
    }
  }

  /**
   * `tool_node`: one tool message per `google_serper` call of the last
   * message, in call order, each carrying the result of searching that
   * call's query and that call's id; calls of other tools are skipped.
   * `search` stands for the Serper API, which the server calls per query.
   */
  method ToolNode(messages: seq<Message>, search: Json -> Json) returns (toolMessages: seq<ToolMessage>)
    requires |messages| > 0 && messages[|messages| - 1].toolCalls.Some?
    ensures var calls := SearchCalls(messages[|messages| - 1].toolCalls.value);
      |toolMessages| == |calls| &&
      forall i :: 0 <= i < |calls| ==>
        toolMessages[i] == ToolMessage(search(QueryArg(calls[i])), calls[i].id, SERPER_TOOL)
  {
    var toolCalls := messages[|messages| - 1].toolCalls.value;
    toolMessages := [];
    for i := 0 to |toolCalls|
      invariant var done := SearchCalls(toolCalls[..i]);
        |toolMessages| == |done| &&
        forall j :: 0 <= j < |done| ==>
          toolMessages[j] == ToolMessage(search(QueryArg(done[j])), done[j].id, SERPER_TOOL)
    {
      var toolCall := toolCalls[i];
      ghost var done := SearchCalls(toolCalls[..i]);
      assert toolCalls[..i + 1] == toolCalls[..i] + [toolCall];
      SearchCallsAppend(toolCalls[..i], [toolCall]);
      assert [toolCall][1..] == [];
      assert SearchCalls(toolCalls[..i + 1]) == done + if toolCall.name == SERPER_TOOL then [toolCall] else [];
      if toolCall.name == SERPER_TOOL {
        var query := QueryArg(toolCall);
        var searchResults := search(query);
        toolMessages := toolMessages + [ToolMessage(searchResults, toolCall.id, toolCall.name)];
      }
    }
    assert toolCalls[..|toolCalls|] == toolCalls;
  }
}
