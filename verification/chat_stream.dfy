/**
 * `generate_chat_responses`: the server-side producer of the Server-Sent
 * Events stream for one chat turn. It turns the workflow's event stream
 * into `data: <json>` frames: an optional checkpoint frame, content and
 * search frames in event order, an error frame if something was raised, and
 * always a final end frame.
 */
module ChatStream {
  import opened Wrappers
  import opened JsonValues
  import opened Graph
  import opened SearchUrls

  const NOT_READY_MESSAGE := "Server not ready. Please try again."
  const ERROR_PREFIX := "An error occurred: "

  /** A streamed model chunk: an AIMessageChunk with its text, or an object of some other type. */
  datatype Chunk = AiMessageChunk(content: string) | OtherChunk(typeName: string)

  /**
   * `serialise_ai_message_chunk`: the text of an AIMessageChunk; any other
   * object raises a TypeError naming its type.
   */
  function SerialiseChunk(chunk: Chunk): (r: Result<string, string>)
    ensures r.Ok? <==> chunk.AiMessageChunk?
    ensures r.Ok? ==> r.value == chunk.content
    ensures r.Err? ==>
      r.error == "Object of type " + chunk.typeName + " is not correctly formatted for serialisation"
  {
    match chunk
    case AiMessageChunk(content) => Ok(content)
    case OtherChunk(typeName) =>
      Err("Object of type " + typeName + " is not correctly formatted for serialisation")
  }

  /** One item of the workflow's event stream. */
  datatype Event =
      /** `on_chat_model_stream` with its chunk */
    | ChatModelStream(chunk: Chunk)
      /** `on_chat_model_end`; None when the output has no `tool_calls` attribute */
    | ChatModelEnd(toolCalls: Option<seq<ToolCall>>)
      /** `on_tool_end` of the named tool with its output */
    | ToolEnd(name: string, output: ToolOutput)
      /** an event of any other type, which the server ignores */
    | OtherEvent(kind: string)
      /** the stream itself raised an Exception whose text is `message` */
    | StreamFailure(message: string)

  /** The JSON object of a frame, by its `type`. */
  datatype Payload =
    | Checkpoint(checkpointId: string)
    | Content(content: string)
    | SearchStart(query: Json)
    | SearchResults(urls: seq<Json>)
    | Error(error: string)
    | End

  /** One `data: <json>` frame; `terminated` tells whether the blank-line terminator follows it. */
  datatype Frame = Frame(payload: Payload, terminated: bool)

  /** A frame followed by its blank-line terminator, as all frames but one are sent. */
  function Data(payload: Payload): Frame
  {
    Frame(payload, true)
  }

  /** The frames that events may produce: terminated content and search frames. */
  predicate IsEventFrame(f: Frame)
  {
    f.terminated && (f.payload.Content? || f.payload.SearchStart? || f.payload.SearchResults?)
  }

  /** What handling one event does: yield frames, or raise an exception with a message. */
  datatype Step = Emit(frames: seq<Frame>) | Raise(message: string)

  /**
   * The body of the event loop for one event. Only a non-AIMessageChunk
   * chunk and a failing stream raise; every event yields at most one frame;
   * only streamed chunks yield content frames; ignored events yield nothing.
   */
  function HandleEvent(event: Event): (step: Step)
    ensures step.Raise? <==> event.StreamFailure? || (event.ChatModelStream? && event.chunk.OtherChunk?)
    ensures step.Emit? ==> |step.frames| <= 1 && forall f :: f in step.frames ==> IsEventFrame(f)
    ensures step.Emit? && !event.ChatModelStream? ==> forall f :: f in step.frames ==> !f.payload.Content?
    ensures event.OtherEvent? || (event.ToolEnd? && event.name != SERPER_TOOL) ==> step == Emit([])
    ensures event.ChatModelStream? && event.chunk.AiMessageChunk? ==>
      step == Emit([Data(Content(event.chunk.content))])
    ensures event.StreamFailure? ==> step == Raise(event.message)
    ensures event.ChatModelStream? && event.chunk.OtherChunk? ==> step == Raise(SerialiseChunk(event.chunk).error)
  {
    match event
    case ChatModelStream(chunk) =>
      (match SerialiseChunk(chunk)
       case Ok(content) => Emit([Data(Content(content))])
       case Err(message) => Raise(message))
    case ChatModelEnd(toolCalls) =>
      var searchCalls := SearchCalls(if toolCalls.Some? then toolCalls.value else []);
      if |searchCalls| > 0 then Emit([Data(SearchStart(QueryArg(searchCalls[0])))]) else Emit([])
    case ToolEnd(name, output) =>
      if name == SERPER_TOOL then Emit([Data(SearchResults(ExtractUrls(output)))]) else Emit([])
    case OtherEvent(_) => Emit([])
    case StreamFailure(message) => Raise(message)
  }

  /** The frames the event loop yielded and the exception, if any, that ended it. */
  datatype Run = Run(frames: seq<Frame>, failure: Option<string>)

  /** The event loop over a finite event stream: it stops at the first exception. */
  function RunEvents(events: seq<Event>): (run: Run)
    ensures |run.frames| <= |events|
    ensures forall f :: f in run.frames ==> IsEventFrame(f)
  {
    if events == [] then Run([], None)
    else
      var before := RunEvents(events[..|events| - 1]);
      if before.failure.Some? then before
      else
        match HandleEvent(events[|events| - 1])
        case Emit(frames) => Run(before.frames + frames, None)
        case Raise(message) => Run(before.frames, Some(message))
  }

  /** The checkpoint frame that opens a new conversation; a continued one has none. */
  function Opening(checkpointId: Option<string>, freshId: string): seq<Frame>
  {
    if checkpointId.None? then [Data(Checkpoint(freshId))] else []
  }

  /** The error frame the exception handler sends when the loop raised. */
  function Closing(run: Run): seq<Frame>
  {
    if run.failure.Some? then [Data(Error(ERROR_PREFIX + run.failure.value))] else []
  }

  /**
   * Every frame of one turn. `graphReady` says whether the workflow is
   * compiled, `checkpointId` is the client's conversation id (None for a new
   * conversation) and `freshId` stands for the uuid4 drawn for a new one.
   */
  function ResponseFrames(graphReady: bool, checkpointId: Option<string>, freshId: string, events: seq<Event>)
    : (frames: seq<Frame>)
    ensures 2 <= |frames| + (if graphReady && checkpointId.Some? then 1 else 0)
    ensures |frames| <= |events| + 3
    ensures frames[|frames| - 1] == Data(End)
  {
    if !graphReady then [Frame(Error(NOT_READY_MESSAGE), false), Data(End)]
    else
      var run := RunEvents(events);
      Opening(checkpointId, freshId) + run.frames + Closing(run) + [Data(End)]
  }

  /** Once an exception has ended the loop, later events change nothing. */
  lemma {:induction false} RunEventsStops(done: seq<Event>, rest: seq<Event>)
    requires RunEvents(done).failure.Some?
    ensures RunEvents(done + rest) == RunEvents(done)
  {
    if rest == [] {
      assert done + rest == done;
    } else {
      var n := |rest| - 1;
      RunEventsStops(done, rest[..n]);
      assert (done + rest)[..|done + rest| - 1] == done + rest[..n];
    }
  }

  /** Handling event i extends a run over the events before it that has not failed. */
  lemma RunEventsStep(events: seq<Event>, i: nat, step: Step)
    requires i < |events| && step == HandleEvent(events[i])
    requires RunEvents(events[..i]).failure.None?
    ensures step.Emit? ==> RunEvents(events[..i + 1]) == Run(RunEvents(events[..i]).frames + step.frames, None)
    ensures step.Raise? ==> RunEvents(events[..i + 1]) == Run(RunEvents(events[..i]).frames, Some(step.message))
  {
    assert events[..i + 1][..i] == events[..i];
  }

  /** The run over a prefix is the whole run once the prefix covers every event or has failed. */
  lemma RunEventsDone(events: seq<Event>, i: nat)
    requires i <= |events|
    requires i == |events| || RunEvents(events[..i]).failure.Some?
    ensures RunEvents(events) == RunEvents(events[..i])
  {
    if i < |events| {
      RunEventsStops(events[..i], events[i..]);
      assert events[..i] + events[i..] == events;
    } else {
      assert events[..i] == events;
    }
  }

  /**
   * The body of the event loop, branch by branch: a streamed chunk becomes a
   * content frame, a model end with a search call a search-start frame, a
   * finished search a search-results frame; other events yield nothing.
   * This is the imperative if/elif form of the dispatch that `HandleEvent`
   * states as a match; the postcondition ties the two together.
   */
  method HandleOneEvent(event: Event) returns (step: Step)
    ensures step == HandleEvent(event)
  {
    step := Emit([]);
    if event.ChatModelStream? {
      var serialised := SerialiseChunk(event.chunk);
      if serialised.Err? {
        step := Raise(serialised.error);
      } else {
        step := Emit([Data(Content(serialised.value))]);
      }
    } else if event.ChatModelEnd? {
      var toolCalls := if event.toolCalls.Some? then event.toolCalls.value else [];
      var searchCalls := SearchCalls(toolCalls);
      if |searchCalls| > 0 {
        step := Emit([Data(SearchStart(QueryArg(searchCalls[0])))]);
      }
    } else if event.ToolEnd? && event.name == SERPER_TOOL {
      var urls := ExtractUrls(event.output);
      step := Emit([Data(SearchResults(urls))]);
    } else if event.StreamFailure? {
      step := Raise(event.message);
    }
  }

  /**
   * The `async for` loop inside the `try`: handle events in order until one
   * raises, collecting the frames yielded so far and the exception's text.
   */
  method RunEventLoop(events: seq<Event>) returns (yielded: seq<Frame>, failure: Option<string>)
    ensures Run(yielded, failure) == RunEvents(events)
  {
    yielded, failure := [], None;
    var i := 0;
    while i < |events| && failure.None?
      invariant 0 <= i <= |events|
      invariant RunEvents(events[..i]) == Run(yielded, failure)
    {
      var step := HandleOneEvent(events[i]);
      RunEventsStep(events, i, step);
      if step.Raise? {
        failure := Some(step.message);
      } else {
        yielded := yielded + step.frames;
      }
      i := i + 1;
    }
    RunEventsDone(events, i);
  }

  /**
   * The producer itself: the not-ready guard, the checkpoint frame for a new
   * conversation, the event loop with its exception handler, and the end frame.
   */
  method GenerateChatResponses(graphReady: bool, checkpointId: Option<string>, freshId: string, events: seq<Event>)
    returns (frames: seq<Frame>)
    ensures frames == ResponseFrames(graphReady, checkpointId, freshId, events)
  {
    if !graphReady {
      frames := [Frame(Error(NOT_READY_MESSAGE), false)];
      frames := frames + [Data(End)];
      return;
    }
    frames := [];
    if checkpointId.None? {
      frames := frames + [Data(Checkpoint(freshId))];
    }
    var yielded, failure := RunEventLoop(events);
    frames := frames + yielded;
    if failure.Some? {
      frames := frames + [Data(Error(ERROR_PREFIX + failure.value))];
    }
    frames := frames + [Data(End)];
  }
}
