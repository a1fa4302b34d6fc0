/** The events a provider streams to the engine (pkg/provider/types.go). */
module ProviderEvents {
  import opened Wrappers
  import opened Api

  /** `Done` carries the status of its item, the only part of it that is read. */
  datatype ProviderEvent =
    | TextDelta(delta: string)
    | TextDone(delta: string)
    | ToolCallDelta(index: int, callID: string, name: string, delta: string)
    | ToolCallDone(index: int, callID: string, name: string, delta: string, item: Option<Item>)
    | ReasoningDelta(delta: string)
    | ReasoningDone
    | Done(status: Option<ItemStatus>, usage: Option<Usage>)
    | Failure(error: string)
}

/** Chat Completions responses, whole (pkg/provider/openaicompat/response.go) and in
    chunks (pkg/provider/openaicompat/stream.go). */
module ChatStream {
  import opened Wrappers
  import opened ProviderEvents
  import opened Api
  import opened Sequences
  import ResponseState

  datatype FinishReason = Stop | Length | ToolCalls | ContentFilter | Unknown(name: string)

  /** A piece of the tool call with this index. */
  datatype Fragment = Fragment(index: int, id: string, name: string, arguments: string)

  datatype Delta = Delta(role: string, content: Option<string>, toolCalls: seq<Fragment>, reasoning: Option<string>)

  datatype Choice = Choice(delta: Delta, finishReason: Option<FinishReason>)

  datatype Chunk = Chunk(choices: seq<Choice>, usage: Option<Usage>)

  datatype Buffer = Buffer(id: string, name: string, args: string)

  type Buffers = map<int, Buffer>

  // ----- Whole responses -----

  /** The message of a choice; content that is not a string counts as none. */
  datatype Completion = Completion(
    reasoning: Option<string>, content: Option<string>, toolCalls: seq<ToolCall>, finishReason: FinishReason)

  datatype ProviderResponse = ProviderResponse(items: seq<Item>, status: ResponseState.Status, usage: Usage)

  function MapFinishReason(reason: FinishReason): ResponseState.Status {
    match reason
    case Length => ResponseState.Incomplete
    case ContentFilter => ResponseState.Failed
    case _ => ResponseState.Completed
  }

  function CallItem(id: ItemId, call: ToolCall): Item {
    FunctionCall(id, ItemCompleted, call)
  }

  function CallItems(calls: seq<ToolCall>, id: nat -> ItemId, from: nat): (items: seq<Item>)
    ensures |items| == |calls|
  {
    seq(|calls|, i requires 0 <= i < |calls| => CallItem(id(from + i), calls[i]))
  }

  function ReasoningItems(whole: Completion, id: nat -> ItemId): seq<Item> {
    if whole.reasoning.GetOr("") == "" then [] else [Reasoning(id(0), ItemCompleted, whole.reasoning.value)]
  }

  function MessageItems(whole: Completion, id: nat -> ItemId, from: nat): seq<Item> {
    if whole.content.GetOr("") == "" then []
    else [Message(id(from), ItemCompleted, Assistant, [], [whole.content.value])]
  }

  /** `id` gives the item ids in the order they are drawn. */
  function WholeItems(whole: Completion, id: nat -> ItemId): seq<Item> {
    var thought := ReasoningItems(whole, id);
    var text := MessageItems(whole, id, |thought|);
    thought + text + CallItems(whole.toolCalls, id, |thought| + |text|)
  }

  /** The items come in the order reasoning, message, calls, each is completed, and their
      ids are those drawn, in order. */
  lemma {:induction false} WholeInOrder(whole: Completion, id: nat -> ItemId, i: nat)
    requires i < |WholeItems(whole, id)|
    ensures var items := WholeItems(whole, id); var calls := |items| - |whole.toolCalls|;
      && items[i].id == id(i) && items[i].status == ItemCompleted
      && (items[i].Reasoning? ==> i == 0)
      && (i < calls ==> items[i].Reasoning? || (items[i].Message? && items[i].role == Assistant && items[i].content == []))
      && (i >= calls ==> items[i].FunctionCall? && items[i].call == whole.toolCalls[i - calls])
  {
    var (thought, text) := (ReasoningItems(whole, id), MessageItems(whole, id, |ReasoningItems(whole, id)|));
    var calls := CallItems(whole.toolCalls, id, |thought| + |text|);
    assert i >= |thought + text| ==> WholeItems(whole, id)[i] == calls[i - |thought + text|];
  }

  method TranslateResponse(choices: seq<Completion>, usage: Option<Usage>, id: nat -> ItemId) returns (pr: ProviderResponse)
    ensures pr.usage == usage.GetOr(Usage(0, 0, 0))
    ensures choices == [] ==> pr.items == [] && pr.status == ResponseState.Failed
    ensures choices != [] ==> pr.items == WholeItems(choices[0], id) && pr.status == MapFinishReason(choices[0].finishReason)
  {
    pr := ProviderResponse([], ResponseState.Completed, Usage(0, 0, 0));
    if usage.Some? {
      pr := pr.(usage := usage.value);
    }
    if |choices| == 0 {
      return pr.(status := ResponseState.Failed);
    }
    var choice := choices[0];
    pr := pr.(status := MapFinishReason(choice.finishReason));
    var items: seq<Item> := [];
    if choice.reasoning.Some? && choice.reasoning.value != "" {
      items := items + [Reasoning(id(|items|), ItemCompleted, choice.reasoning.value)];
    }
    assert items == ReasoningItems(choice, id);
    if choice.content.Some? && choice.content.value != "" {
      items := items + [Message(id(|items|), ItemCompleted, Assistant, [], [choice.content.value])];
    }
    assert items == ReasoningItems(choice, id) + MessageItems(choice, id, |ReasoningItems(choice, id)|);
    items := AppendToolCalls(items, choice.toolCalls, id);
    pr := pr.(items := items);
  }

  method AppendToolCalls(before: seq<Item>, calls: seq<ToolCall>, id: nat -> ItemId) returns (items: seq<Item>)
    ensures items == before + CallItems(calls, id, |before|)
  {
    items := before;
    for i := 0 to |calls|
      invariant items == before + CallItems(calls, id, |before|)[..i]
    {
      items := items + [CallItem(id(|items|), calls[i])];
    }
  }

  // ----- Chunks -----

  function MapFinishReasonToItemStatus(reason: FinishReason): ItemStatus {
    if reason.Length? || reason.ContentFilter? then ItemIncomplete else ItemCompleted
  }

  function At(bufs: Buffers, index: int): Buffer {
    if index in bufs then bufs[index] else Buffer("", "", "")
  }

  /** The first fragment of an index gives id and name, every one adds arguments. */
  function AddFragment(bufs: Buffers, f: Fragment): Buffers {
    var buf := if f.index in bufs then bufs[f.index] else Buffer(f.id, f.name, "");
    bufs[f.index := buf.(args := buf.args + f.arguments)]
  }

  function FragmentEvent(bufs: Buffers, f: Fragment): ProviderEvent {
    if f.index in bufs then ToolCallDelta(f.index, bufs[f.index].id, "", f.arguments)
    else ToolCallDelta(f.index, f.id, f.name, f.arguments)
  }

  function AddFragments(bufs: Buffers, frags: seq<Fragment>): Buffers
    decreases |frags|
  {
    if frags == [] then bufs else AddFragment(AddFragments(bufs, frags[..|frags| - 1]), frags[|frags| - 1])
  }

  function FragmentEvents(bufs: Buffers, frags: seq<Fragment>): seq<ProviderEvent>
    decreases |frags|
  {
    if frags == [] then []
    else
      var init := frags[..|frags| - 1];
      FragmentEvents(bufs, init) + [FragmentEvent(AddFragments(bufs, init), frags[|frags| - 1])]
  }

  function ReasoningEvents(delta: Delta): seq<ProviderEvent> {
    if delta.reasoning.GetOr("") != "" then [ReasoningDelta(delta.reasoning.value)] else []
  }

  function TextEvents(delta: Delta): seq<ProviderEvent> {
    if delta.content.GetOr("") != "" then [TextDelta(delta.content.value)]
    else if delta.role != "" && delta.reasoning.None? then [TextDelta("")]
    else []
  }

  function CallDone(index: int, buf: Buffer): ProviderEvent {
    ToolCallDone(index, buf.id, buf.name, buf.args, Some(CallItem(0, ToolCall(buf.id, buf.name, buf.args))))
  }

  function Flushed(bufs: Buffers, order: seq<int>): seq<ProviderEvent> {
    seq(|order|, i requires 0 <= i < |order| => CallDone(order[i], At(bufs, order[i])))
  }

  predicate Flushes(chunk: Chunk, bufs: Buffers) {
    chunk.choices != [] && chunk.choices[0].finishReason.Some? && (chunk.choices[0].finishReason.value.ToolCalls? || |bufs| > 0)
  }

  /** `order` is the order in which the map of buffers is walked. */
  function ChunkEvents(chunk: Chunk, bufs: Buffers, order: seq<int>): seq<ProviderEvent> {
    if chunk.choices == [] then
      if chunk.usage.Some? then [Done(None, chunk.usage)] else []
    else
      var (delta, reason) := (chunk.choices[0].delta, chunk.choices[0].finishReason);
      if reason.Some? then
        (if Flushes(chunk, bufs) then Flushed(bufs, order) else [])
        + [TextDone(delta.content.GetOr("")), Done(Some(MapFinishReasonToItemStatus(reason.value)), chunk.usage)]
      else if delta.toolCalls != [] then FragmentEvents(bufs, delta.toolCalls)
      else ReasoningEvents(delta) + TextEvents(delta)
  }

  function ChunkBuffers(chunk: Chunk, bufs: Buffers): Buffers {
    if chunk.choices == [] then bufs
    else if chunk.choices[0].finishReason.Some? then if Flushes(chunk, bufs) then map[] else bufs
    else AddFragments(bufs, chunk.choices[0].delta.toolCalls)
  }

  /** The order names each buffer once. */
  ghost predicate Lists(order: seq<int>, bufs: Buffers) {
    && (forall i, j | 0 <= i < j < |order| :: order[i] != order[j])
    && (forall k :: k in order <==> k in bufs)
  }

  function RunBuffers(chunks: seq<Chunk>): Buffers {
    if chunks == [] then map[] else ChunkBuffers(chunks[|chunks| - 1], RunBuffers(chunks[..|chunks| - 1]))
  }

  function RunEvents(chunks: seq<Chunk>, orders: seq<seq<int>>): seq<ProviderEvent>
    requires |orders| == |chunks|
    decreases |chunks|
  {
    if chunks == [] then []
    else
      var n := |chunks| - 1;
      RunEvents(chunks[..n], orders[..n]) + ChunkEvents(chunks[n], RunBuffers(chunks[..n]), orders[n])
  }

  /** Each flush walks the buffers of its time. */
  ghost predicate Walks(chunks: seq<Chunk>, orders: seq<seq<int>>)
    requires |orders| == |chunks|
    decreases |chunks|
  {
    chunks == [] ||
      var n := |chunks| - 1;
      && Walks(chunks[..n], orders[..n])
      && (Flushes(chunks[n], RunBuffers(chunks[..n])) ==> Lists(orders[n], RunBuffers(chunks[..n])))
  }

  lemma RunOneMore(chunks: seq<Chunk>, orders: seq<seq<int>>, chunk: Chunk, order: seq<int>)
    requires |orders| == |chunks| && Walks(chunks, orders)
    requires Flushes(chunk, RunBuffers(chunks)) ==> Lists(order, RunBuffers(chunks))
    ensures Walks(chunks + [chunk], orders + [order])
    ensures RunBuffers(chunks + [chunk]) == ChunkBuffers(chunk, RunBuffers(chunks))
    ensures RunEvents(chunks + [chunk], orders + [order])
         == RunEvents(chunks, orders) + ChunkEvents(chunk, RunBuffers(chunks), order)
  {
    assert (chunks + [chunk])[..|chunks|] == chunks && (orders + [order])[..|chunks|] == orders;
  }

  /** The keys of a map in any order, as a walk over it yields them. */
  method AnyOrder<T(==)>(keys: set<T>) returns (order: seq<T>)
    ensures forall i, j | 0 <= i < j < |order| :: order[i] != order[j]
    ensures forall k :: k in order <==> k in keys
  {
    order := [];
    var left := keys;
    while left != {}
      invariant left <= keys
      invariant forall i, j | 0 <= i < j < |order| :: order[i] != order[j]
      invariant forall k :: k in order <==> k in keys && k !in left
      decreases |left|
    {
      var key :| key in left;
      order := order + [key];
      left := left - {key};
    }
  }

  class Translator {
    var toolCalls: Buffers
    var channel: seq<ProviderEvent>
    /** The chunks taken so far, and the orders in which they flushed the buffers. */
    ghost var chunks: seq<Chunk>
    ghost var orders: seq<seq<int>>

    constructor ()
      ensures toolCalls == map[] && channel == [] && chunks == [] && orders == []
    {
      toolCalls, channel, chunks, orders := map[], [], [], [];
    }

    ghost predicate Valid()
      reads this
    {
      && |orders| == |chunks| && Walks(chunks, orders)
      && toolCalls == RunBuffers(chunks) && channel == RunEvents(chunks, orders)
    }

    method Take(chunk: Chunk)
      requires Valid()
      modifies this
      ensures Valid() && chunks == old(chunks) + [chunk]
    {
      ghost var order := TranslateChunk(chunk);
      RunOneMore(chunks, orders, chunk, order);
      chunks, orders := chunks + [chunk], orders + [order];
    }

    method Send(ev: ProviderEvent)
      modifies `channel
      ensures channel == old(channel) + [ev]
    {
      channel := channel + [ev];
    }

    method FlushToolCalls() returns (order: seq<int>)
      modifies `toolCalls, `channel
      ensures Lists(order, old(toolCalls))
      ensures channel == old(channel) + Flushed(old(toolCalls), order)
      ensures toolCalls == map[]
    {
      order := AnyOrder(toolCalls.Keys);
      for i := 0 to |order|
        invariant toolCalls == old(toolCalls)
        invariant channel == old(channel) + Flushed(toolCalls, order)[..i]
      {
        assert order[i] in order;
        Send(CallDone(order[i], toolCalls[order[i]]));
      }
      toolCalls := map[];
    }

    method AddToolCalls(frags: seq<Fragment>)
      modifies `toolCalls, `channel
      ensures toolCalls == AddFragments(old(toolCalls), frags)
      ensures channel == old(channel) + FragmentEvents(old(toolCalls), frags)
    {
      for i := 0 to |frags|
        invariant toolCalls == AddFragments(old(toolCalls), frags[..i])
        invariant channel == old(channel) + FragmentEvents(old(toolCalls), frags[..i])
      {
        assert frags[..i + 1][..i] == frags[..i];
        var f := frags[i];
        if f.index !in toolCalls {
          Send(ToolCallDelta(f.index, f.id, f.name, f.arguments));
          toolCalls := toolCalls[f.index := Buffer(f.id, f.name, "")];
        } else {
          Send(ToolCallDelta(f.index, toolCalls[f.index].id, "", f.arguments));
        }
        var buf := toolCalls[f.index];
        toolCalls := toolCalls[f.index := buf.(args := buf.args + f.arguments)];
      }
      assert frags[..|frags|] == frags;
    }

    method TranslateChunk(chunk: Chunk) returns (ghost order: seq<int>)
      modifies `toolCalls, `channel
      ensures Flushes(chunk, old(toolCalls)) ==> Lists(order, old(toolCalls))
      ensures channel == old(channel) + ChunkEvents(chunk, old(toolCalls), order)
      ensures toolCalls == ChunkBuffers(chunk, old(toolCalls))
    {
      order := [];
      if |chunk.choices| == 0 {
        if chunk.usage.Some? {
          Send(Done(None, chunk.usage));
        }
        return;
      }
      var choice := chunk.choices[0];
      var delta := choice.delta;
      if choice.finishReason.Some? {
        var reason := choice.finishReason.value;
        if reason.ToolCalls? || |toolCalls| > 0 {
          order := FlushToolCalls();
        }
        Send(TextDone(delta.content.GetOr("")));
        Send(Done(Some(MapFinishReasonToItemStatus(reason)), chunk.usage));
        return;
      }
      if |delta.toolCalls| > 0 {
        AddToolCalls(delta.toolCalls);
        return;
      }
      if delta.reasoning.Some? && delta.reasoning.value != "" {
        Send(ReasoningDelta(delta.reasoning.value));
      }
      if delta.content.Some? && delta.content.value != "" {
        Send(TextDelta(delta.content.value));
        return;
      }
      if delta.role != "" && delta.reasoning.None? {
        Send(TextDelta(""));
      }
    }
  }

  // ----- Reading the stream -----

  const DATA: string := "data: "
  const DONE: string := "[DONE]"

  datatype Line = Skip | Finish | Data(chunk: Chunk)

  /** Lines without data, and data that does not decode, are skipped. */
  function ReadLine(line: string, decode: string -> Option<Chunk>): Line {
    if !(DATA <= line) then Skip
    else
      var payload := line[|DATA|..];
      if payload == DONE then Finish
      else match decode(payload) case None => Skip case Some(chunk) => Data(chunk)
  }

  /** The chunks on the lines before [DONE]. */
  function Chunks(lines: seq<string>, decode: string -> Option<Chunk>): seq<Chunk> {
    if lines == [] then []
    else
      match ReadLine(lines[0], decode)
      case Skip => Chunks(lines[1..], decode)
      case Finish => []
      case Data(chunk) => [chunk] + Chunks(lines[1..], decode)
  }

  /** Is there a [DONE] line? */
  predicate Ends(lines: seq<string>, decode: string -> Option<Chunk>) {
    lines != [] && (ReadLine(lines[0], decode).Finish? || Ends(lines[1..], decode))
  }

  /** A stream as a server sends it: a data line for each payload. */
  function DataLines(payloads: seq<string>): seq<string> {
    seq(|payloads|, i requires 0 <= i < |payloads| => "data: " + payloads[i])
  }

  lemma {:induction false} ReadDataLine(payload: string, decode: string -> Option<Chunk>)
    ensures ReadLine(DATA + payload, decode)
         == if payload == DONE then Finish else if decode(payload).Some? then Data(decode(payload).value) else Skip
  {
    assert (DATA + payload)[|DATA|..] == payload;
  }

  /** The payloads before [DONE] are decoded, in order, whatever follows it. */
  lemma {:induction false} PayloadsAreRead(payloads: seq<string>, decode: string -> Option<Chunk>, rest: seq<string>)
    requires forall p | p in payloads :: p != "[DONE]" && decode(p).Some?
    ensures var (chunks, lines) := (Chunks(DataLines(payloads) + ["data: [DONE]"] + rest, decode), DataLines(payloads));
      && |chunks| == |payloads| && (forall i | 0 <= i < |payloads| :: chunks[i] == decode(payloads[i]).value)
      && Ends(lines + ["data: [DONE]"] + rest, decode)
  {
    var lines := DataLines(payloads) + ["data: [DONE]"] + rest;
    if payloads == [] {
      ReadDataLine(DONE, decode);
      assert lines[0] == DATA + DONE;
    } else {
      assert payloads[0] in payloads && forall p | p in payloads[1..] :: p in payloads;
      PayloadsAreRead(payloads[1..], decode, rest);
      ReadDataLine(payloads[0], decode);
      assert lines[1..] == DataLines(payloads[1..]) + ["data: [DONE]"] + rest;
    }
  }

  /** A line that is not data, or whose data does not decode, makes no difference. */
  lemma {:induction false} OtherLinesAreSkipped(before: seq<string>, line: string, after: seq<string>, decode: string -> Option<Chunk>)
    requires "data: " <= line ==> line[6..] != "[DONE]" && decode(line[6..]).None?
    ensures Chunks(before + [line] + after, decode) == Chunks(before + after, decode)
    ensures Ends(before + [line] + after, decode) <==> Ends(before + after, decode)
    decreases |before|
  {
    var lines := before + [line] + after;
    assert |DATA| == 6;
    if before == [] {
      assert lines[1..] == after && before + after == after;
    } else {
      OtherLinesAreSkipped(before[1..], line, after, decode);
      assert lines[1..] == before[1..] + [line] + after && (before + after)[1..] == before[1..] + after;
    }
  }

  /** Take the chunks on the lines; `open` says that neither [DONE] nor cancellation
      ended the reading. */
  method ReadChunks(lines: seq<string>, decode: string -> Option<Chunk>, cancelled: nat -> bool, t: Translator) returns (open: bool)
    requires t.Valid() && t.chunks == []
    modifies t
    ensures t.Valid() && t.chunks <= Chunks(lines, decode)
    ensures (forall i :: !cancelled(i)) ==> t.chunks == Chunks(lines, decode) && open == !Ends(lines, decode)
    ensures open ==> !Ends(lines, decode)
  {
    for i := 0 to |lines|
      invariant t.Valid()
      invariant Chunks(lines, decode) == t.chunks + Chunks(lines[i..], decode)
      invariant Ends(lines, decode) == Ends(lines[i..], decode)
    {
      if cancelled(i) {
        return false;
      }
      assert lines[i..][0] == lines[i] && lines[i..][1..] == lines[i + 1..];
      var line := ReadLine(lines[i], decode);
      if line.Finish? {
        return false;
      }
      if line.Data? {
        Assoc(t.chunks, [line.chunk], Chunks(lines[i + 1..], decode));
        t.Take(line.chunk);
      }
    }
    open := true;
  }

  /** The channel got the events of these chunks, for some orders of walking the buffers. */
  ghost predicate Translates(chunks: seq<Chunk>, channel: seq<ProviderEvent>) {
    exists orders: seq<seq<int>> :: IsTranslation(chunks, orders, channel)
  }

  ghost predicate IsTranslation(chunks: seq<Chunk>, orders: seq<seq<int>>, channel: seq<ProviderEvent>) {
    |orders| == |chunks| && Walks(chunks, orders) && channel == RunEvents(chunks, orders)
  }

  /** And then, if there was one, the report of a read error. */
  ghost predicate Reports(chunks: seq<Chunk>, error: Option<string>, channel: seq<ProviderEvent>) {
    if error.None? then Translates(chunks, channel)
    else channel != [] && channel[|channel| - 1] == Failure("SSE stream read error: " + error.value) && Translates(chunks, channel[..|channel| - 1])
  }

  /** Translate the whole stream. Without cancellation no chunk before [DONE] is lost, and
      a read error is reported unless [DONE] came first; with it, some of the last are. */
  method ParseSSEStream(lines: seq<string>, decode: string -> Option<Chunk>, cancelled: nat -> bool, readError: Option<string>)
    returns (channel: seq<ProviderEvent>)
    ensures (forall i :: !cancelled(i)) ==>
      Reports(Chunks(lines, decode), if Ends(lines, decode) then None else readError, channel)
    ensures exists chunks, error: Option<string> :: chunks <= Chunks(lines, decode) && Reports(chunks, error, channel)
  {
    var t := new Translator();
    var open := ReadChunks(lines, decode, cancelled, t);
    channel := t.channel;
    assert IsTranslation(t.chunks, t.orders, channel);
    if open && readError.Some? && !cancelled(|lines|) {
      channel := channel + [Failure("SSE stream read error: " + readError.value)];
      assert channel[..|channel| - 1] == t.channel;
      assert Reports(t.chunks, readError, channel);
    } else {
      assert Reports(t.chunks, None, channel);
    }
  }
}
