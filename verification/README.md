# Searchly chat server: the SSE frame producer

This project models the server side of Searchly's chat stream and proves properties of it. Searchly is a chat front-end that answers questions with an LLM and Google web search. For each chat turn, the server's `generate_chat_responses` runs a LangGraph workflow and turns the workflow's event stream into Server-Sent Events. Each event is a `data: <json>` frame, and the frame types are `checkpoint`, `content`, `search_start`, `search_results`, `error` and `end`. The workflow has two nodes, `model` and `tool_node` (server/app.py:105-106). After the model node, the conditional edge `tools_router` (server/app.py:112) decides whether the turn goes to `tool_node`, which runs every `google_serper` call, or ends.

Modules, one per component of `server/app.py`:

- `JsonValues` (json_values.dfy): decoded JSON values. Dicts, lists and strings are kept. The other JSON scalars (numbers, booleans and null) are kept only by their Python truth value, because `item.get("link") or ...` depends on it.
- `Graph` (graph.dfy): tool calls, the router (the conditional edge after the model node), the filter that picks the `google_serper` calls, and the tool node. The tool node is a method with a loop, as the source builds its list step by step.
- `SearchUrls` (search_urls.dfy): the URL list of a `search_results` frame. It is taken from the `organic` entries of a dict or from a bare list, with a fallback from `link` to `url` to `""` for list items, and capped at 8.
- `ChatStream` (chat_stream.dfy): events, frames, and the handling of one event (`HandleEvent`). It also holds the event loop that stops at the first exception (`RunEvents`) and the whole frame sequence of a turn (`ResponseFrames`). The imperative producer `GenerateChatResponses` is proved to yield exactly that sequence.
- `StreamProperties` (stream_properties.dfy): what the frame sequence promises the client.

A frame is a tagged payload plus a flag that says whether the blank-line terminator `\n\n` follows it. The server sends every frame with the terminator except one. When the graph is not ready, the error frame has no terminator (server/app.py:198). On the wire it therefore runs into the end frame: the whole response is a single line holding both JSON objects.

Two facts of the code are worth stating because a client might expect otherwise. A `checkpoint` frame is sent only for a new conversation, never for a continued one (server/app.py:203-228). A failure during the turn is sent as a frame of type `error` (server/app.py:272); no frame of type `search_error` is ever sent.

## Model

| member | source | states |
|---|---|---|
| `Graph.ToolsRouter` | server/app.py:58-68 | the turn ends exactly when the last message has no `tool_calls` attribute or an empty list; otherwise it goes to the tool node |
| `Graph.SearchCalls` | server/app.py:246 | the filtered calls are all named `google_serper`, each is one of the input calls, and there are no more of them than calls |
| `Graph.SearchCallsAppend` | server/app.py:246 | filtering commutes with concatenation, so the search calls keep call order |
| `Graph.NoSearchCalls` | server/app.py:246-248 | there is no search call exactly when no call is named `google_serper` |
| `Graph.FirstSearchCall` | server/app.py:246-250 | the first search call is the earliest call named `google_serper`, and no call before it has that name |
| `Graph.QueryArg` | server/app.py:89 | the query is the call's `query` argument when it has one and `""` otherwise; it is always one of the arguments or `""` |
| `Graph.ToolNode` | server/app.py:70-98 | one tool message per `google_serper` call, in call order, each with the search result for that call's query (default `""`) and that call's id; calls to other tools yield nothing |
| `SearchUrls.LinkOrUrl` | server/app.py:265 | a list item yields its `link` when truthy, else its `url` when present, else `""` (also when `link` is present but falsy and `url` is missing); the result is always one of the item's values or `""` |
| `SearchUrls.Pick` | server/app.py:263-265 | an item contributes a URL only when it is a dict; under the `organic` rule exactly the dicts with a `link` key contribute, and the URL is that `link`; under the list rule every dict contributes, and the URL is its `LinkOrUrl` |
| `SearchUrls.Collect` | server/app.py:263-265 | each item contributes at most one URL |
| `SearchUrls.CollectAppend` | server/app.py:263-265 | collecting commutes with concatenation of the item list, so URLs keep source order |
| `SearchUrls.CollectOrigin` | server/app.py:263-265 | the i-th URL is picked from some item k, and exactly i URLs come from the items before k (sound, in source order) |
| `SearchUrls.CollectPosition` | server/app.py:263-265 | every item that qualifies puts its URL at the position given by the number of URLs before it (nothing qualifying is dropped) |
| `SearchUrls.Decoded` | server/app.py:261 | a text output's parse is its decoded value, so text that is not valid JSON yields nothing; any other output is used as is |
| `SearchUrls.OrganicEntries` | server/app.py:262-263 | the `organic` value yields its entries when it is a list and nothing otherwise |
| `SearchUrls.UrlSource` | server/app.py:261-265 | there is a list to draw URLs from exactly when the output parses to a dict with `organic` or to a list; for the dict it is the entries of `organic` under the `organic` rule, for a bare list its items under the list rule |
| `SearchUrls.ExtractUrls` | server/app.py:259-267 | the `search_results` list never has more than 8 URLs |
| `SearchUrls.UrlsArePrefixOfCollected` | server/app.py:259-267 | the URLs are the first 8 collected from the source list, in order; without a source list they are empty |
| `ChatStream.SerialiseChunk` | server/app.py:162-171 | an AIMessageChunk yields its content; any other object raises a TypeError whose message names its type |
| `ChatStream.HandleEvent` | server/app.py:231-269 | an event raises exactly when it is a stream failure (with the failure's message) or a chunk that is not an AIMessageChunk (with the TypeError text of `serialise_ai_message_chunk`); otherwise it yields at most one terminated content or search frame; only streamed chunks yield content frames, and an AIMessageChunk yields exactly one with its text; other events and tool ends of other tools yield nothing |
| `ChatStream.HandleOneEvent` | server/app.py:232-269 | the if/elif dispatch of the loop body computes what `HandleEvent` specifies |
| `ChatStream.RunEvents` | server/app.py:231-273 | the loop yields at most one frame per event, and only terminated content and search frames |
| `ChatStream.RunEventsStops` | server/app.py:205-273 | once an exception has left the loop, later events change nothing |
| `ChatStream.RunEventLoop` | server/app.py:231-269 | the `async for` loop yields the frames and the failure that `RunEvents` specifies |
| `ChatStream.ResponseFrames` | server/app.py:174-277 | a turn has at least two frames (at least one for a continued conversation), at most three more than its events, and always ends with the `end` frame |
| `ChatStream.GenerateChatResponses` | server/app.py:174-277 | the producer yields exactly `ResponseFrames` for the readiness flag, the checkpoint id, the fresh id and the events |
| `StreamProperties.Handled` | server/app.py:231-273 | the number of events handled before the first raising event: every earlier event emits, and the event at that index raises |
| `StreamProperties.FailureStopsStream` | server/app.py:205-273 | the loop yields the frames of the events before the first raising event, and its failure is that event's text; without a raising event, nothing fails |
| `StreamProperties.ReadyFrameAt` | server/app.py:205-277 | each frame of a ready turn is the checkpoint opening, a frame of the loop, the closing error frame, or the final end frame |
| `StreamProperties.EndIsLastAndUnique` | server/app.py:196-277 | on the not-ready, normal and exception paths, the last frame is `end` and no other frame is `end` |
| `StreamProperties.NotReadyQuirk` | server/app.py:196-200 | all frames carry the terminator exactly when the graph is ready; a not-ready turn is exactly an unterminated error frame and an end frame |
| `StreamProperties.CheckpointOnlyForNewConversation` | server/app.py:202-228 | a frame is a checkpoint exactly when the graph is ready, the conversation is new and the frame is the first; that frame carries the fresh id |
| `StreamProperties.ErrorFrameOnlyOnFailure` | server/app.py:271-277 | a ready turn has an error frame exactly when some event raises; it is the frame before `end` and carries "An error occurred: " plus the first raising event's message |
| `StreamProperties.ContentFollowsChunks` | server/app.py:231-238 | if the loop finishes, its content frames are the streamed chunk texts, one per chunk, in event order |
| `StreamProperties.ContentFramesMatchChunks` | server/app.py:231-238 | the content frames of a ready turn are the chunk texts of the events handled before the first exception, in order |
| `StreamProperties.ContentOfStep` | server/app.py:235-238 | one handled event contributes its chunk text as content when it is an AIMessageChunk, and no content otherwise |
| `StreamProperties.SearchStartAnnouncesFirstSearchCall` | server/app.py:241-252 | a model end yields a `search_start` frame exactly when it has a `google_serper` call; its query is that of the first such call, which is also the first search `ToolNode` runs |
| `StreamProperties.EndRouteMeansNoSearchStart` | server/app.py:241-252 | for any non-empty message list, when the router ends the turn on its last message, the model end event for that message announces no search |
| `StreamProperties.ToolEndAlwaysReportsResults` | server/app.py:254-269 | a finished `google_serper` run never raises and yields exactly one `search_results` frame whose URLs are `ExtractUrls` of the output, at most 8 of them; output that is not valid JSON, or parses to an unexpected shape, gives an empty list; other tools yield nothing |
| `StreamProperties.Wire` | server/app.py:198-277 | at least six characters per frame; the text ends with the blank line when the last frame is terminated |
| `StreamProperties.WireFrame` | server/app.py:198-277 | one frame on the wire is `data: `, its JSON text, and `\n\n` exactly when it is terminated |
| `StreamProperties.NotReadyFramesShareOneLine` | server/app.py:197-199 | if the JSON text never contains a newline, the not-ready response is one line holding both objects, followed by a single blank line |

## Left out

- The LLM call in the `model` node, the Serper API and `asyncio.to_thread` are foreign network calls. The model takes their results as inputs: the events of the stream, and a `search` function from query to result.
- Graph construction and compilation, the SQLite checkpointer and the FastAPI lifespan are library wiring and I/O. Whether the graph is compiled is the `graphReady` flag.
- The FastAPI app, CORS, the endpoints and uvicorn startup are web-server plumbing. The user's `message` only reaches the workflow, so it has no parameter.
- The async generator is modelled as a finished sequence of frames, and the event stream as a finite sequence. Cancellation is left out: when a client disconnects, `asyncio.CancelledError` is not an `Exception` and would end the generator without an end frame.
- `uuid4` is not modelled; the fresh conversation id is the `freshId` parameter.
- `json.dumps` formatting is not modelled. Frames are tagged payloads, and `Wire` takes the encoder as a parameter.
- Numbers, booleans and null are represented only by their truth value (`JOther`), and floats are not modelled.
- Tool output that holds values JSON cannot encode is not modelled: `JOther` stands only for JSON scalars. For such output, `json.dumps` of the `search_results` frame (server/app.py:269) raises a TypeError outside the inner `try`, so the source sends an error frame and then the end frame.
- An AIMessageChunk's content is modelled as text; content given as a list of content blocks is not modelled.
- Tool calls are records that always have a name, arguments and an id. The `KeyError` a malformed call would raise is not modelled.
- `Graph.ToolNode` returns the search result as a JSON value; its `json.dumps` serialisation is not modelled.
- `Graph.ToolsRouter` requires a non-empty message list, because the source indexes the last message. `Graph.ToolNode` requires that message to have `tool_calls`, because the source reads that attribute without a check.
- The client-side SSE parser and its conversation-state fold are not part of this model; only the server is.
