/**
 * What the frame sequence of one chat turn promises the client: framing
 * (the end frame closes every turn, the checkpoint frame opens only new
 * conversations, the not-ready quirk), the effect of exceptions, and the
 * correspondence between events and the frames they yield.
 */
module StreamProperties {
  import opened Wrappers
  import opened Graph
  import opened SearchUrls
  import opened ChatStream

  /** The number of events handled before the first one that raises (all of them if none does). */
  function Handled(events: seq<Event>): (k: nat)
    ensures k <= |events|
    ensures forall j :: 0 <= j < k ==> HandleEvent(events[j]).Emit?
    ensures k < |events| ==> HandleEvent(events[k]).Raise?
  {
    if events == [] then 0
    else if HandleEvent(events[0]).Raise? then 0
    else 1 + Handled(events[1..])
  }

  /** The texts of the content frames, in frame order. */
  function ContentOf(frames: seq<Frame>): seq<string>
  {
    if frames == [] then []
    else
      var last := frames[|frames| - 1];
      ContentOf(frames[..|frames| - 1]) + if last.payload.Content? then [last.payload.content] else []
  }

  /** The texts of the streamed AIMessageChunks, in event order. */
  function ChunkTexts(events: seq<Event>): seq<string>
  {
    if events == [] then []
    else
      var last := events[|events| - 1];
      ChunkTexts(events[..|events| - 1]) +
        if last.ChatModelStream? && last.chunk.AiMessageChunk? then [last.chunk.content] else []
  }

  lemma {:induction false} ContentOfAppend(a: seq<Frame>, b: seq<Frame>)
    ensures ContentOf(a + b) == ContentOf(a) + ContentOf(b)
  {
    if b == [] {
      assert a + b == a;
    } else {
      var n := |b| - 1;
      ContentOfAppend(a, b[..n]);
      assert (a + b)[..|a + b| - 1] == a + b[..n];
      assert (a + b)[|a + b| - 1] == b[n];
    }
  }

  /** A stream in which no event raises runs to its end without failure. */
  lemma {:induction false} NoRaiseNoFailure(events: seq<Event>)
    requires forall j :: 0 <= j < |events| ==> HandleEvent(events[j]).Emit?
    ensures RunEvents(events).failure.None?
  {
    if events != [] {
      var init := events[..|events| - 1];
      assert forall j :: 0 <= j < |init| ==> init[j] == events[j];
      NoRaiseNoFailure(init);
    }
  }

  /**
   * An exception ends the loop: the frames yielded are those of the events
   * before the first raising event, and the failure is that event's text.
   */
  lemma FailureStopsStream(events: seq<Event>)
    ensures var k := Handled(events);
      && RunEvents(events[..k]).failure.None?
      && RunEvents(events) == Run(
        RunEvents(events[..k]).frames,
        if k < |events| then Some(HandleEvent(events[k]).message) else None)
  {
    var k := Handled(events);
    var done := events[..k];
    assert forall j :: 0 <= j < |done| ==> done[j] == events[j];
    NoRaiseNoFailure(done);
    if k < |events| {
      RunEventsStep(events, k, HandleEvent(events[k]));
      RunEventsDone(events, k + 1);
    } else {
      assert done == events;
    }
  }

  /**
   * Where a frame of a ready turn comes from: the opening, the event loop
   * (a terminated content or search frame), the closing, or the end frame.
   */
  lemma {:induction false} ReadyFrameAt(checkpointId: Option<string>, freshId: string, events: seq<Event>, i: nat)
    requires i < |ResponseFrames(true, checkpointId, freshId, events)|
    ensures var r := ResponseFrames(true, checkpointId, freshId, events);
      var opening := Opening(checkpointId, freshId);
      var run := RunEvents(events);
      var closing := Closing(run);
      if i < |opening| then r[i] == opening[i]
      else if i < |opening| + |run.frames| then IsEventFrame(r[i])
      else if i < |opening| + |run.frames| + |closing| then r[i] == closing[i - |opening| - |run.frames|]
      else i == |r| - 1 && r[i] == Data(End)
  {
    var opening := Opening(checkpointId, freshId);
    var run := RunEvents(events);
    if |opening| <= i < |opening| + |run.frames| {
      assert ResponseFrames(true, checkpointId, freshId, events)[i] == run.frames[i - |opening|];
      assert run.frames[i - |opening|] in run.frames;
    }
  }

  /** Every turn ends with exactly one end frame, and it is the last frame. */
  lemma EndIsLastAndUnique(graphReady: bool, checkpointId: Option<string>, freshId: string, events: seq<Event>)
    ensures var r := ResponseFrames(graphReady, checkpointId, freshId, events);
      && |r| > 0
      && r[|r| - 1] == Data(End)
      && forall i :: 0 <= i < |r| - 1 ==> r[i].payload != End
  {
    if graphReady {
      var r := ResponseFrames(graphReady, checkpointId, freshId, events);
      forall i | 0 <= i < |r| - 1
        ensures r[i].payload != End
      {
        ReadyFrameAt(checkpointId, freshId, events, i);
      }
    }
  }

  /**
   * Only the not-ready path sends a frame without its blank-line
   * terminator, and that path sends exactly an error frame and an end frame.
   */
  lemma NotReadyQuirk(graphReady: bool, checkpointId: Option<string>, freshId: string, events: seq<Event>)
    ensures var r := ResponseFrames(graphReady, checkpointId, freshId, events);
      && ((forall i :: 0 <= i < |r| ==> r[i].terminated) <==> graphReady)
      && (!graphReady ==> r == [Frame(Error(NOT_READY_MESSAGE), false), Data(End)])
  {
    var r := ResponseFrames(graphReady, checkpointId, freshId, events);
    if graphReady {
      forall i | 0 <= i < |r|
        ensures r[i].terminated
      {
        ReadyFrameAt(checkpointId, freshId, events, i);
      }
    } else {
      assert !r[0].terminated;
    }
  }

  /**
   * A new conversation opens with a checkpoint frame carrying the fresh id;
   * no other frame, and no frame of a continued conversation, is a checkpoint.
   */
  lemma CheckpointOnlyForNewConversation(graphReady: bool, checkpointId: Option<string>, freshId: string, events: seq<Event>)
    ensures var r := ResponseFrames(graphReady, checkpointId, freshId, events);
      && (forall i :: 0 <= i < |r| ==>
            (r[i].payload.Checkpoint? <==> graphReady && checkpointId.None? && i == 0))
      && (graphReady && checkpointId.None? ==> r[0] == Data(Checkpoint(freshId)))
  {
    var r := ResponseFrames(graphReady, checkpointId, freshId, events);
    if graphReady {
      forall i | 0 <= i < |r|
        ensures r[i].payload.Checkpoint? <==> checkpointId.None? && i == 0
      {
        ReadyFrameAt(checkpointId, freshId, events, i);
      }
    }
  }

  /**
   * An error frame is sent exactly when some event raises; it is the one
   * before the end frame and carries the text of the first raising event.
   */
  lemma ErrorFrameOnlyOnFailure(checkpointId: Option<string>, freshId: string, events: seq<Event>)
    ensures var r := ResponseFrames(true, checkpointId, freshId, events);
      var k := Handled(events);
      && ((exists i :: 0 <= i < |r| && r[i].payload.Error?) <==> k < |events|)
      && forall i :: 0 <= i < |r| && r[i].payload.Error? ==>
           k < |events| && i == |r| - 2 && r[i] == Data(Error(ERROR_PREFIX + HandleEvent(events[k]).message))
  {
    FailureStopsStream(events);
    var r := ResponseFrames(true, checkpointId, freshId, events);
    var k := Handled(events);
    forall i | 0 <= i < |r| && r[i].payload.Error?
      ensures k < |events| && i == |r| - 2 && r[i] == Data(Error(ERROR_PREFIX + HandleEvent(events[k]).message))
    {
      ReadyFrameAt(checkpointId, freshId, events, i);
    }
    if k < |events| {
      ReadyFrameAt(checkpointId, freshId, events, |r| - 2);
    }
  }

  /** Streamed chunks reach the client as content frames, one each, in event order. */
  lemma {:induction false} ContentFollowsChunks(events: seq<Event>)
    requires RunEvents(events).failure.None?
    ensures ContentOf(RunEvents(events).frames) == ChunkTexts(events)
  {
    if events != [] {
      var init := events[..|events| - 1];
      var last := events[|events| - 1];
      assert RunEvents(init).failure.None?;
      ContentFollowsChunks(init);
      var frames := HandleEvent(last).frames;
      assert RunEvents(events).frames == RunEvents(init).frames + frames;
      ContentOfAppend(RunEvents(init).frames, frames);
      ContentOfStep(last);
    }
  }

  /** The content one handled event contributes: its chunk text when it is an AIMessageChunk, else nothing. */
  lemma ContentOfStep(last: Event)
    requires HandleEvent(last).Emit?
    ensures ContentOf(HandleEvent(last).frames) ==
      if last.ChatModelStream? && last.chunk.AiMessageChunk? then [last.chunk.content] else []
  {
    var frames := HandleEvent(last).frames;
    if frames != [] {
      assert frames == [frames[0]];
      assert frames[..0] == [];
    }
  }

  /** Frames none of which is a content frame contribute no content. */
  lemma {:induction false} ContentOfNone(frames: seq<Frame>)
    requires forall f :: f in frames ==> !f.payload.Content?
    ensures ContentOf(frames) == []
  {
    if frames != [] {
      ContentOfNone(frames[..|frames| - 1]);
    }
  }

  /** The opening, closing and end frames of a ready turn carry no content. */
  lemma ContentOfReady(checkpointId: Option<string>, freshId: string, events: seq<Event>)
    ensures ContentOf(ResponseFrames(true, checkpointId, freshId, events)) == ContentOf(RunEvents(events).frames)
  {
    var run := RunEvents(events);
    var opening := Opening(checkpointId, freshId);
    var tail := Closing(run) + [Data(End)];
    var front := opening + run.frames;
    assert ContentOf(front) == ContentOf(run.frames) by {
      ContentOfNone(opening);
      ContentOfAppend(opening, run.frames);
    }
    assert ContentOf(front + tail) == ContentOf(front) by {
      ContentOfNone(tail);
      ContentOfAppend(front, tail);
    }
    assert ResponseFrames(true, checkpointId, freshId, events) == front + tail;
  }

  /**
   * The content frames of a turn are the streamed chunk texts of the events
   * handled before the first exception, in order.
   */
  lemma ContentFramesMatchChunks(checkpointId: Option<string>, freshId: string, events: seq<Event>)
    ensures ContentOf(ResponseFrames(true, checkpointId, freshId, events)) == ChunkTexts(events[..Handled(events)])
  {
    ContentOfReady(checkpointId, freshId, events);
    FailureStopsStream(events);
    ContentFollowsChunks(events[..Handled(events)]);
  }

  /**
   * A model end yields a search-start frame exactly when it carries a
   * `google_serper` call; the query is that of the first such call, the
   * same call whose search the tool node runs first.
   */
  lemma SearchStartAnnouncesFirstSearchCall(toolCalls: Option<seq<ToolCall>>)
    ensures var step := HandleEvent(ChatModelEnd(toolCalls));
      && step.Emit? && |step.frames| <= 1
      && (|step.frames| == 1 <==> toolCalls.Some? && exists c :: c in toolCalls.value && c.name == SERPER_TOOL)
      && (|step.frames| == 1 ==>
            && step.frames[0].payload == SearchStart(QueryArg(SearchCalls(toolCalls.value)[0]))
            && exists k ::
                 && 0 <= k < |toolCalls.value|
                 && toolCalls.value[k].name == SERPER_TOOL
                 && (forall j :: 0 <= j < k ==> toolCalls.value[j].name != SERPER_TOOL)
                 && step.frames[0] == Data(SearchStart(QueryArg(toolCalls.value[k]))))
  {
    if toolCalls.Some? {
      NoSearchCalls(toolCalls.value);
      if SearchCalls(toolCalls.value) != [] {
        var k := FirstSearchCall(toolCalls.value);
      }
    }
  }

  /**
   * When the router ends the turn after the model's message, the end event
   * of that message announces no search.
   */
  lemma EndRouteMeansNoSearchStart(messages: seq<Message>)
    requires |messages| > 0 && ToolsRouter(messages) == ToEnd
    ensures HandleEvent(ChatModelEnd(messages[|messages| - 1].toolCalls)) == Emit([])
  {
  }

  /**
   * A finished `google_serper` run always yields one search-results frame
   * and never raises; output that does not parse, or parses to an
   * unexpected shape, yields an empty URL list. Other tools yield nothing.
   */
  lemma ToolEndAlwaysReportsResults(name: string, output: ToolOutput)
    ensures var step := HandleEvent(ToolEnd(name, output));
      && step.Emit?
      && (name == SERPER_TOOL ==>
            && |step.frames| == 1
            && step.frames[0] == Data(SearchResults(ExtractUrls(output)))
            && |step.frames[0].payload.urls| <= MAX_URLS
            && (UrlSource(output).None? ==> step.frames[0].payload.urls == [])
            && (output == TextOutput(None) ==> step.frames[0].payload.urls == []))
      && (name != SERPER_TOOL ==> step.frames == [])
  {
  }

  /**
   * The frames as text on the wire: `data: ` and the JSON text of the
   * payload, then the blank-line terminator when the frame has one.
   * `encode` stands for `json.dumps`.
   */
  function Wire(frames: seq<Frame>, encode: Payload -> string): (w: string)
    ensures |w| >= 6 * |frames|
    ensures frames != [] && frames[|frames| - 1].terminated ==> w[|w| - 2..] == "\n\n"
  {
    if frames == [] then ""
    else
      var last := frames[|frames| - 1];
      Wire(frames[..|frames| - 1], encode) + "data: " + encode(last.payload) + if last.terminated then "\n\n" else ""
  }

  /** One frame on the wire: `data: `, the JSON text, and the terminator when the frame has one. */
  lemma WireFrame(f: Frame, encode: Payload -> string)
    ensures Wire([f], encode) == "data: " + encode(f.payload) + (if f.terminated then "\n\n" else "")
  {
    assert [f][..0] == [];
  }

  /**
   * Because the not-ready error frame has no terminator, the whole not-ready
   * response is a single line holding both JSON objects, followed by one
   * blank line: a client that splits the stream into lines sees neither the
   * error nor the end as a frame of its own.
   */
  lemma NotReadyFramesShareOneLine(checkpointId: Option<string>, freshId: string, events: seq<Event>, encode: Payload -> string)
    requires forall p :: '\n' !in encode(p)
    ensures var w := Wire(ResponseFrames(false, checkpointId, freshId, events), encode);
      && w == "data: " + encode(Error(NOT_READY_MESSAGE)) + "data: " + encode(End) + "\n\n"
      && forall i :: 0 <= i < |w| - 2 ==> w[i] != '\n'
  {
    var frames := ResponseFrames(false, checkpointId, freshId, events);
    var first := [Frame(Error(NOT_READY_MESSAGE), false)];
    assert frames[..|frames| - 1] == first;
    assert Wire(first, encode) == "data: " + encode(Error(NOT_READY_MESSAGE)) by {
      assert first[..0] == [];
      assert Wire([], encode) == "";
    }
    var line := "data: " + encode(Error(NOT_READY_MESSAGE)) + "data: " + encode(End);
    var w := Wire(frames, encode);
    assert w == line + "\n\n";
    forall i | 0 <= i < |w| - 2
      ensures w[i] != '\n'
    {
      assert w[i] == line[i];
      var e1 := encode(Error(NOT_READY_MESSAGE));
      var e2 := encode(End);
      if 6 <= i < 6 + |e1| {
        assert line[i] == e1[i - 6];
        assert e1[i - 6] in e1;
      } else if 12 + |e1| <= i {
        assert line[i] == e2[i - 12 - |e1|];
        assert e2[i - 12 - |e1|] in e2;
      }
    }
  }
}
