/** However a completion is cut into chunks: the final response of a stream against
    TranslateResponse on the assembled message (pkg/provider/openaicompat/stream.go and
    response.go, pkg/engine/engine.go). */
module ChunkInvariance {
  import opened Wrappers
  import opened ProviderEvents
  import opened ChatStream
  import opened FragmentAssembly
  import opened StreamRun
  import opened StreamOutput
  import opened Sequences
  import ResponseState
  import StreamEvents
  import opened Api

  // ----- Chunks and the message they make up -----

  /** A chunk that neither finishes nor, having usage alone, ends the stream. */
  predicate IsBody(c: Chunk) {
    if c.choices == [] then c.usage.None? else c.choices[0].finishReason.None?
  }

  predicate IsFinish(c: Chunk) {
    c.choices != [] && c.choices[0].finishReason.Some?
  }

  /** One completion: chunks without a finish reason, and then one with it. */
  predicate Cuts(chunks: seq<Chunk>) {
    && chunks != [] && IsFinish(chunks[|chunks| - 1])
    && forall i | 0 <= i < |chunks| - 1 :: IsBody(chunks[i])
  }

  function DeltaOf(c: Chunk): Delta {
    if c.choices == [] then Delta("", None, [], None) else c.choices[0].delta
  }

  datatype Part = Content | Thought

  /** The piece of a part that a chunk carries. */
  function Piece(c: Chunk, part: Part): string {
    if part.Content? then DeltaOf(c).content.GetOr("") else DeltaOf(c).reasoning.GetOr("")
  }

  /** The translation looks at no content in a chunk that finishes or has tool calls. */
  predicate Skims(c: Chunk) {
    IsFinish(c) || DeltaOf(c).toolCalls != []
  }

  function Kept(c: Chunk, part: Part): string {
    if Skims(c) then "" else Piece(c, part)
  }

  function Texts(chunks: seq<Chunk>, part: Part): string {
    if chunks == [] then "" else Texts(chunks[..|chunks| - 1], part) + Piece(chunks[|chunks| - 1], part)
  }

  function KeptTexts(chunks: seq<Chunk>, part: Part): string {
    if chunks == [] then "" else KeptTexts(chunks[..|chunks| - 1], part) + Kept(chunks[|chunks| - 1], part)
  }

  function FragmentsIn(chunks: seq<Chunk>): seq<Fragment> {
    if chunks == [] then [] else FragmentsIn(chunks[..|chunks| - 1]) + DeltaOf(chunks[|chunks| - 1]).toolCalls
  }

  /** `whole` is the message that the chunks make up, its tool calls in the order of `indices`. */
  ghost predicate Assembles(chunks: seq<Chunk>, whole: Completion, indices: seq<int>)
    requires Cuts(chunks)
  {
    && whole.reasoning.GetOr("") == Texts(chunks, Thought)
    && whole.content.GetOr("") == Texts(chunks, Content)
    && whole.finishReason == chunks[|chunks| - 1].choices[0].finishReason.value
    && Lists(indices, AddFragments(map[], FragmentsIn(chunks)))
    && |whole.toolCalls| == |indices|
    && forall i | 0 <= i < |indices| :: Mentions(FragmentsIn(chunks), indices[i]) && whole.toolCalls[i] == CallOf(FragmentsIn(chunks), indices[i])
  }

  // ----- What the engine is told -----

  lemma {:induction false} TextConcat(a: seq<ProviderEvent>, b: seq<ProviderEvent>)
    ensures TextOf(a + b) == TextOf(a) + TextOf(b) && ReasoningOf(a + b) == ReasoningOf(a) + ReasoningOf(b)
    decreases |b|
  {
    if b == [] {
      assert a + b == a;
    } else {
      var init := b[..|b| - 1];
      assert (a + b)[..|a + b| - 1] == a + init;
      TextConcat(a, init);
      Assoc(TextOf(a), TextOf(init), if b[|b| - 1].TextDelta? then b[|b| - 1].delta else "");
      Assoc(ReasoningOf(a), ReasoningOf(init), if b[|b| - 1].ReasoningDelta? then b[|b| - 1].delta else "");
    }
  }

  lemma {:induction false} SawConcat(a: seq<ProviderEvent>, b: seq<ProviderEvent>, index: int)
    ensures SawCall(a + b, index) <==> SawCall(a, index) || SawCall(b, index)
    decreases |b|
  {
    if b == [] {
      assert a + b == a;
    } else {
      assert (a + b)[..|a + b| - 1] == a + b[..|b| - 1];
      SawConcat(a, b[..|b| - 1], index);
    }
  }

  /** Events that neither end the stream nor complete a call. */
  predicate Midway(es: seq<ProviderEvent>) {
    forall i | 0 <= i < |es| :: !Halts(es[i]) && !es[i].ToolCallDone?
  }

  lemma {:induction false} MidwayDone(a: seq<ProviderEvent>, b: seq<ProviderEvent>)
    requires Midway(b)
    ensures CallsDone(a + b) == CallsDone(a)
    decreases |b|
  {
    if b == [] {
      assert a + b == a;
    } else {
      assert (a + b)[..|a + b| - 1] == a + b[..|b| - 1];
      MidwayDone(a, b[..|b| - 1]);
    }
  }

  lemma {:induction false} FragmentEventIs(bufs: Buffers, f: Fragment)
    ensures FragmentEvent(bufs, f).ToolCallDelta? && FragmentEvent(bufs, f).index == f.index
  {
  }

  lemma {:induction false} FragmentsTell(bufs: Buffers, frags: seq<Fragment>, index: int)
    ensures var es := FragmentEvents(bufs, frags);
      && TextOf(es) == "" && ReasoningOf(es) == "" && Midway(es)
      && (SawCall(es, index) <==> Mentions(frags, index))
    decreases |frags|
  {
    hide FragmentEvent, AddFragments;
    if frags != [] {
      FragmentEventIs(AddFragments(bufs, frags[..|frags| - 1]), frags[|frags| - 1]);
      FragmentsTell(bufs, frags[..|frags| - 1], index);
      var (init, last) := (FragmentEvents(bufs, frags[..|frags| - 1]), FragmentEvent(AddFragments(bufs, frags[..|frags| - 1]), frags[|frags| - 1]));
      assert FragmentEvents(bufs, frags) == init + [last];
      assert (init + [last])[..|init|] == init;
    }
  }

  lemma {:induction false} OneEvent(ev: ProviderEvent, index: int)
    ensures TextOf([ev]) == (if ev.TextDelta? then ev.delta else "")
    ensures ReasoningOf([ev]) == (if ev.ReasoningDelta? then ev.delta else "")
    ensures SawCall([ev], index) <==> ev.ToolCallDelta? && ev.index == index
  {
    assert [ev][..0] == [];
  }

  lemma {:induction false} ReasoningEventsTell(delta: Delta, index: int)
    ensures var es := ReasoningEvents(delta);
      TextOf(es) == "" && ReasoningOf(es) == delta.reasoning.GetOr("") && Midway(es) && !SawCall(es, index)
  {
    if ReasoningEvents(delta) != [] {
      OneEvent(ReasoningEvents(delta)[0], index);
    }
  }

  lemma {:induction false} TextEventsTell(delta: Delta, index: int)
    ensures var es := TextEvents(delta);
      TextOf(es) == delta.content.GetOr("") && ReasoningOf(es) == "" && Midway(es) && !SawCall(es, index)
  {
    if TextEvents(delta) != [] {
      OneEvent(TextEvents(delta)[0], index);
    }
  }

  lemma {:induction false} NothingSaid()
    ensures TextOf([]) == "" && ReasoningOf([]) == ""
  {
  }

  /** The text and the reasoning that a chunk of the body tells the engine are what is
      kept of it. */
  lemma {:induction false} ChunkSays(c: Chunk, bufs: Buffers, order: seq<int>)
    requires IsBody(c)
    ensures TextOf(ChunkEvents(c, bufs, order)) == Kept(c, Content)
    ensures ReasoningOf(ChunkEvents(c, bufs, order)) == Kept(c, Thought)
  {
    hide TextOf, ReasoningOf, Midway, SawCall, FragmentEvents, ReasoningEvents, TextEvents;
    NothingSaid();
    if DeltaOf(c).toolCalls != [] {
      FragmentsTell(bufs, DeltaOf(c).toolCalls, 0);
    } else {
      ReasoningEventsTell(DeltaOf(c), 0);
      TextEventsTell(DeltaOf(c), 0);
      TextConcat(ReasoningEvents(DeltaOf(c)), TextEvents(DeltaOf(c)));
    }
  }

  lemma {:induction false} ChunkIsMidway(c: Chunk, bufs: Buffers, order: seq<int>)
    requires IsBody(c)
    ensures Midway(ChunkEvents(c, bufs, order))
  {
    if DeltaOf(c).toolCalls != [] {
      FragmentsTell(bufs, DeltaOf(c).toolCalls, 0);
    }
  }

  /** The calls that it tells of are those it mentions. */
  lemma {:induction false} ChunkMentions(c: Chunk, bufs: Buffers, order: seq<int>, index: int)
    requires IsBody(c)
    ensures SawCall(ChunkEvents(c, bufs, order), index) <==> Mentions(DeltaOf(c).toolCalls, index)
  {
    if DeltaOf(c).toolCalls != [] {
      FragmentsTell(bufs, DeltaOf(c).toolCalls, index);
    } else {
      ReasoningEventsTell(DeltaOf(c), index);
      TextEventsTell(DeltaOf(c), index);
      SawConcat(ReasoningEvents(DeltaOf(c)), TextEvents(DeltaOf(c)), index);
    }
  }

  predicate AllBody(chunks: seq<Chunk>) {
    forall i | 0 <= i < |chunks| :: IsBody(chunks[i])
  }

  lemma {:induction false} MentionsConcat(a: seq<Fragment>, b: seq<Fragment>, index: int)
    ensures Mentions(a + b, index) <==> Mentions(a, index) || Mentions(b, index)
    decreases |b|
  {
    if b == [] {
      assert a + b == a;
    } else {
      assert (a + b)[..|a + b| - 1] == a + b[..|b| - 1];
      MentionsConcat(a, b[..|b| - 1], index);
    }
  }

  lemma {:induction false} BodySays(chunks: seq<Chunk>, orders: seq<seq<int>>)
    requires AllBody(chunks) && |orders| == |chunks|
    ensures var es := RunEvents(chunks, orders);
      TextOf(es) == KeptTexts(chunks, Content) && ReasoningOf(es) == KeptTexts(chunks, Thought)
    decreases |chunks|
  {
    if chunks != [] {
      var n := |chunks| - 1;
      BodySays(chunks[..n], orders[..n]);
      ChunkSays(chunks[n], RunBuffers(chunks[..n]), orders[n]);
      TextConcat(RunEvents(chunks[..n], orders[..n]), ChunkEvents(chunks[n], RunBuffers(chunks[..n]), orders[n]));
    }
  }

  lemma {:induction false} BodyIsMidway(chunks: seq<Chunk>, orders: seq<seq<int>>)
    requires AllBody(chunks) && |orders| == |chunks|
    ensures Midway(RunEvents(chunks, orders)) && CallsDone(RunEvents(chunks, orders)) == []
    decreases |chunks|
  {
    if chunks != [] {
      var n := |chunks| - 1;
      BodyIsMidway(chunks[..n], orders[..n]);
      ChunkIsMidway(chunks[n], RunBuffers(chunks[..n]), orders[n]);
      MidwayDone(RunEvents(chunks[..n], orders[..n]), ChunkEvents(chunks[n], RunBuffers(chunks[..n]), orders[n]));
    }
  }

  lemma {:induction false} BodyMentions(chunks: seq<Chunk>, orders: seq<seq<int>>, index: int)
    requires AllBody(chunks) && |orders| == |chunks|
    ensures SawCall(RunEvents(chunks, orders), index) <==> Mentions(FragmentsIn(chunks), index)
    decreases |chunks|
  {
    if chunks != [] {
      var n := |chunks| - 1;
      BodyMentions(chunks[..n], orders[..n], index);
      ChunkMentions(chunks[n], RunBuffers(chunks[..n]), orders[n], index);
      SawConcat(RunEvents(chunks[..n], orders[..n]), ChunkEvents(chunks[n], RunBuffers(chunks[..n]), orders[n]), index);
      MentionsConcat(FragmentsIn(chunks[..n]), DeltaOf(chunks[n]).toolCalls, index);
    }
  }

  /** A finish chunk leaves no call over that could be completed once more. */
  lemma {:induction false} FinishClearsBuffers(chunks: seq<Chunk>)
    requires chunks != [] && IsFinish(chunks[|chunks| - 1])
    ensures RunBuffers(chunks) == map[]
  {
    var bufs := RunBuffers(chunks[..|chunks| - 1]);
    if |bufs| == 0 {
      assert bufs == map[];
    }
  }

  /** Before the finish chunk the engine is told the kept text and reasoning, of the
      mentioned calls, and of no end. */
  lemma {:induction false} BodyTells(chunks: seq<Chunk>, orders: seq<seq<int>>, index: int)
    requires AllBody(chunks) && |orders| == |chunks|
    ensures var es := RunEvents(chunks, orders);
      && TextOf(es) == KeptTexts(chunks, Content) && ReasoningOf(es) == KeptTexts(chunks, Thought)
      && Midway(es) && CallsDone(es) == []
      && (SawCall(es, index) <==> Mentions(FragmentsIn(chunks), index))
  {
    BodySays(chunks, orders);
    BodyIsMidway(chunks, orders);
    BodyMentions(chunks, orders, index);
  }

  lemma {:induction false} BodyBuffers(chunks: seq<Chunk>)
    requires AllBody(chunks)
    ensures RunBuffers(chunks) == AddFragments(map[], FragmentsIn(chunks))
    decreases |chunks|
  {
    if chunks != [] {
      var n := |chunks| - 1;
      BodyBuffers(chunks[..n]);
      AddConcat(map[], FragmentsIn(chunks[..n]), DeltaOf(chunks[n]).toolCalls);
    }
  }

  // ----- The flush -----

  function CallsInOrder(bufs: Buffers, order: seq<int>): seq<Item> {
    seq(|order|, i requires 0 <= i < |order| => CallItem(0, BufferedCall(At(bufs, order[i]))))
  }

  lemma {:induction false} FlushIsSilent(bufs: Buffers, order: seq<int>)
    ensures TextOf(Flushed(bufs, order)) == "" && ReasoningOf(Flushed(bufs, order)) == ""
  {
    if order != [] {
      var n := |order| - 1;
      FlushIsSilent(bufs, order[..n]);
      assert Flushed(bufs, order)[..n] == Flushed(bufs, order[..n]);
    }
  }

  lemma {:induction false} OneCallDone(prior: seq<ProviderEvent>, index: int, buf: Buffer)
    requires SawCall(prior, index)
    ensures CallsDone(prior + [CallDone(index, buf)]) == CallsDone(prior) + [CallItem(0, BufferedCall(buf))]
  {
    assert (prior + [CallDone(index, buf)])[..|prior|] == prior;
  }

  lemma {:induction false} FlushTells(before: seq<ProviderEvent>, bufs: Buffers, order: seq<int>)
    requires CallsDone(before) == []
    requires forall i | 0 <= i < |order| :: SawCall(before, order[i])
    ensures CallsDone(before + Flushed(bufs, order)) == CallsInOrder(bufs, order)
    decreases |order|
  {
    if order == [] {
      assert before + Flushed(bufs, order) == before;
    } else {
      var n := |order| - 1;
      var prior := before + Flushed(bufs, order[..n]);
      FlushTells(before, bufs, order[..n]);
      SawConcat(before, Flushed(bufs, order[..n]), order[n]);
      OneCallDone(prior, order[n], At(bufs, order[n]));
      FlushSplits(before, bufs, order);
    }
  }

  lemma {:induction false} FlushSplits(before: seq<ProviderEvent>, bufs: Buffers, order: seq<int>)
    requires order != []
    ensures var n := |order| - 1;
      && before + Flushed(bufs, order) == before + Flushed(bufs, order[..n]) + [CallDone(order[n], At(bufs, order[n]))]
      && CallsInOrder(bufs, order) == CallsInOrder(bufs, order[..n]) + [CallItem(0, BufferedCall(At(bufs, order[n])))]
  {
  }

  // ----- What the stream loses -----

  predicate SkimsOnlyEmpty(chunks: seq<Chunk>, part: Part) {
    forall i | 0 <= i < |chunks| && Skims(chunks[i]) :: Piece(chunks[i], part) == ""
  }

  /** What is kept is no longer than the whole, and all of it exactly when every skimmed
      piece is empty. */
  lemma {:induction false} KeptExactlyWhen(chunks: seq<Chunk>, part: Part)
    ensures |KeptTexts(chunks, part)| <= |Texts(chunks, part)|
    ensures KeptTexts(chunks, part) == Texts(chunks, part) <==> SkimsOnlyEmpty(chunks, part)
  {
    if chunks != [] {
      var n := |chunks| - 1;
      var (init, last) := (chunks[..n], chunks[n]);
      KeptExactlyWhen(init, part);
      assert SkimsOnlyEmpty(chunks, part) <==> SkimsOnlyEmpty(init, part) && (Skims(last) ==> Piece(last, part) == "");
      if |Kept(last, part)| == |Piece(last, part)| {
        SamePrefix(KeptTexts(init, part), Texts(init, part), Piece(last, part));
      }
    }
  }

  lemma {:induction false} SamePrefix(a: string, b: string, c: string)
    ensures a + c == b + c <==> a == b
  {
    if a + c == b + c {
      assert |a| == |b|;
      assert a == (a + c)[..|a|] && b == (b + c)[..|b|];
    }
  }

  function Front(chunks: seq<Chunk>): seq<Chunk>
    requires chunks != []
  {
    chunks[..|chunks| - 1]
  }

  function FinishFragments(chunks: seq<Chunk>): seq<Fragment>
    requires chunks != []
  {
    DeltaOf(chunks[|chunks| - 1]).toolCalls
  }

  /** The streamed tool calls, index by index, are those of the whole message exactly
      when the finish chunk begins no call and adds no arguments. */
  lemma {:induction false} ToolCallsExactlyWhen(chunks: seq<Chunk>)
    requires Cuts(chunks)
    ensures RunBuffers(Front(chunks)) == AddFragments(map[], FragmentsIn(chunks))
       <==> AddsNothing(RunBuffers(Front(chunks)), FinishFragments(chunks))
  {
    BodyBuffers(Front(chunks));
    AddConcat(map[], FragmentsIn(Front(chunks)), FinishFragments(chunks));
    AddsNothingExactlyWhen(RunBuffers(Front(chunks)), FinishFragments(chunks));
  }

  // ----- The streamed response -----

  /** The order in which the finish chunk flushes the buffers. */
  function FlushOrder(chunks: seq<Chunk>, orders: seq<seq<int>>): seq<int>
    requires chunks != [] && |orders| == |chunks|
  {
    if Flushes(chunks[|chunks| - 1], RunBuffers(Front(chunks))) then orders[|chunks| - 1] else []
  }

  function BodyEvents(chunks: seq<Chunk>, orders: seq<seq<int>>): seq<ProviderEvent>
    requires chunks != [] && |orders| == |chunks|
  {
    RunEvents(Front(chunks), orders[..|chunks| - 1])
  }

  /** The provider events of one completion but for the done event that ends them. */
  function BeforeDone(chunks: seq<Chunk>, orders: seq<seq<int>>): seq<ProviderEvent>
    requires chunks != [] && |orders| == |chunks|
  {
    BodyEvents(chunks, orders) + Flushed(RunBuffers(Front(chunks)), FlushOrder(chunks, orders))
    + [TextDone(Piece(chunks[|chunks| - 1], Content))]
  }

  function FinishReasonOf(chunks: seq<Chunk>): FinishReason
    requires Cuts(chunks)
  {
    chunks[|chunks| - 1].choices[0].finishReason.value
  }

  lemma {:induction false} EventsOfCut(chunks: seq<Chunk>, orders: seq<seq<int>>)
    requires Cuts(chunks) && |orders| == |chunks| && Walks(chunks, orders)
    ensures RunEvents(chunks, orders) == BeforeDone(chunks, orders)
      + [Done(Some(MapFinishReasonToItemStatus(FinishReasonOf(chunks))), chunks[|chunks| - 1].usage)]
    ensures Lists(FlushOrder(chunks, orders), RunBuffers(Front(chunks)))
  {
    var bufs := RunBuffers(Front(chunks));
    if !Flushes(chunks[|chunks| - 1], bufs) {
      assert |bufs| == 0;
      assert Flushed(bufs, []) == [];
    }
  }

  lemma {:induction false} NothingHaltsBefore(chunks: seq<Chunk>, orders: seq<seq<int>>)
    requires Cuts(chunks) && |orders| == |chunks|
    ensures forall i | 0 <= i < |BeforeDone(chunks, orders)| :: !Halts(BeforeDone(chunks, orders)[i])
  {
    BodyTells(Front(chunks), orders[..|chunks| - 1], 0);
    FlushDoesNotHalt(RunBuffers(Front(chunks)), FlushOrder(chunks, orders));
  }

  lemma {:induction false} FlushDoesNotHalt(bufs: Buffers, order: seq<int>)
    ensures forall i | 0 <= i < |Flushed(bufs, order)| :: !Halts(Flushed(bufs, order)[i])
  {
  }

  /** The loop takes everything up to the done event, whatever comes after it. */
  lemma {:induction false} StopsAtDone(before: seq<ProviderEvent>, done: ProviderEvent, rest: seq<ProviderEvent>, cancelled: nat -> bool)
    requires done.Done? && forall i | 0 <= i < |before| :: !Halts(before[i])
    requires forall i :: !cancelled(i)
    ensures var es := before + [done] + rest;
      StopAt(es, cancelled, 0) == |before| && es[..|before|] == before
      && ExitOf(es, cancelled, |before|) == Finished(StatusOf(done.status), done.usage)
  {
    var es := before + [done] + rest;
    var n := StopAt(es, cancelled, 0);
    assert es[|before|] == done;
    assert forall i | 0 <= i < |before| :: es[i] == before[i];
  }

  lemma {:induction false} BeforeDoneTells(chunks: seq<Chunk>, orders: seq<seq<int>>)
    requires Cuts(chunks) && |orders| == |chunks| && Walks(chunks, orders)
    ensures var es := BeforeDone(chunks, orders);
      && TextOf(es) == KeptTexts(chunks, Content) && ReasoningOf(es) == KeptTexts(chunks, Thought)
      && SawText(es)
      && CallsDone(es) == CallsInOrder(RunBuffers(Front(chunks)), FlushOrder(chunks, orders))
  {
    var (body, bufs, order) := (BodyEvents(chunks, orders), RunBuffers(Front(chunks)), FlushOrder(chunks, orders));
    EventsOfCut(chunks, orders);
    BodyTells(Front(chunks), orders[..|chunks| - 1], 0);
    BodyBuffers(Front(chunks));
    forall i | 0 <= i < |order|
      ensures SawCall(body, order[i])
    {
      BodyTells(Front(chunks), orders[..|chunks| - 1], order[i]);
      BuffersHoldCalls(FragmentsIn(Front(chunks)), order[i]);
    }
    FlushTells(body, bufs, order);
    FlushIsSilent(bufs, order);
    TextConcat(body, Flushed(bufs, order));
    LastTextDone(body + Flushed(bufs, order), Piece(chunks[|chunks| - 1], Content));
  }

  lemma {:induction false} LastTextDone(es: seq<ProviderEvent>, delta: string)
    ensures var more := es + [TextDone(delta)];
      && TextOf(more) == TextOf(es) && ReasoningOf(more) == ReasoningOf(es) && SawText(more) && CallsDone(more) == CallsDone(es)
  {
    assert (es + [TextDone(delta)])[..|es|] == es;
  }

  // ----- What a response says, whatever its ids and the order of its calls -----

  function Joined(parts: seq<string>): string {
    if parts == [] then "" else Joined(parts[..|parts| - 1]) + parts[|parts| - 1]
  }

  function TextOfItem(item: Item, part: Part): string {
    if part.Thought? && item.Reasoning? then item.thought
    else if part.Content? && item.Message? then Joined(item.output)
    else ""
  }

  function TextOfItems(items: seq<Item>, part: Part): string {
    if items == [] then "" else TextOfItems(items[..|items| - 1], part) + TextOfItem(items[|items| - 1], part)
  }

  function CallCount(items: seq<Item>, call: ToolCall): nat {
    if items == [] then 0
    else
      var last := items[|items| - 1];
      CallCount(items[..|items| - 1], call) + (if last.FunctionCall? && last.call == call then 1 else 0)
  }

  lemma {:induction false} IdSaysNothing(item: Item, part: Part)
    ensures TextOfItem(Unnamed(item), part) == TextOfItem(item, part)
    ensures Unnamed(item).FunctionCall? <==> item.FunctionCall?
    ensures item.FunctionCall? ==> Unnamed(item).call == item.call
  {
  }

  lemma {:induction false} IdsSayNothing(items: seq<Item>, part: Part, call: ToolCall)
    ensures TextOfItems(AllUnnamed(items), part) == TextOfItems(items, part)
    ensures CallCount(AllUnnamed(items), call) == CallCount(items, call)
  {
    if items != [] {
      var n := |items| - 1;
      IdsSayNothing(items[..n], part, call);
      IdSaysNothing(items[n], part);
      assert AllUnnamed(items)[..n] == AllUnnamed(items[..n]) && AllUnnamed(items)[n] == Unnamed(items[n]);
    }
  }

  lemma {:induction false} ItemsConcat(a: seq<Item>, b: seq<Item>, part: Part, call: ToolCall)
    ensures TextOfItems(a + b, part) == TextOfItems(a, part) + TextOfItems(b, part)
    ensures CallCount(a + b, call) == CallCount(a, call) + CallCount(b, call)
    decreases |b|
  {
    if b == [] {
      assert a + b == a;
    } else {
      assert (a + b)[..|a + b| - 1] == a + b[..|b| - 1];
      ItemsConcat(a, b[..|b| - 1], part, call);
      Assoc(TextOfItems(a, part), TextOfItems(b[..|b| - 1], part), TextOfItem(b[|b| - 1], part));
    }
  }

  lemma {:induction false} OneItem(item: Item, part: Part, call: ToolCall)
    ensures TextOfItems([item], part) == TextOfItem(item, part)
    ensures CallCount([item], call) == (if item.FunctionCall? && item.call == call then 1 else 0)
  {
    assert [item][..0] == [];
  }

  lemma {:induction false} CallsSay(bufs: Buffers, order: seq<int>, part: Part, call: ToolCall)
    ensures TextOfItems(CallsInOrder(bufs, order), part) == ""
    ensures CallCount(CallsInOrder(bufs, order), call) == Occurs(bufs, order, call)
  {
    if order != [] {
      var n := |order| - 1;
      CallsSay(bufs, order[..n], part, call);
      assert CallsInOrder(bufs, order)[..n] == CallsInOrder(bufs, order[..n]);
    }
  }

  function ThoughtItems(thought: string): seq<Item> {
    if thought != "" then [Reasoning(0, ItemCompleted, thought)] else []
  }

  function TextItems(text: string, status: ItemStatus, shown: bool): seq<Item> {
    if shown then [Message(0, status, Assistant, [], [text])] else []
  }

  lemma {:induction false} ThoughtItemsSay(thought: string, part: Part, call: ToolCall)
    ensures TextOfItems(ThoughtItems(thought), part) == (if part.Thought? then thought else "")
    ensures CallCount(ThoughtItems(thought), call) == 0
  {
    if thought != "" {
      OneItem(ThoughtItems(thought)[0], part, call);
    }
  }

  lemma {:induction false} TextItemsSay(text: string, status: ItemStatus, shown: bool, part: Part, call: ToolCall)
    requires !shown ==> text == ""
    ensures TextOfItems(TextItems(text, status, shown), part) == (if part.Content? then text else "")
    ensures CallCount(TextItems(text, status, shown), call) == 0
  {
    if shown {
      OneItem(TextItems(text, status, shown)[0], part, call);
      assert [text][..0] == [] && Joined([text]) == "" + text;
    }
  }

  /** A response of reasoning, text and calls says these. */
  lemma {:induction false} ResponseSays(
    thought: string, text: string, status: ItemStatus, shown: bool, bufs: Buffers, order: seq<int>, part: Part, call: ToolCall)
    requires !shown ==> text == ""
    ensures var items := ThoughtItems(thought) + TextItems(text, status, shown) + CallsInOrder(bufs, order);
      && TextOfItems(items, part) == (if part.Thought? then thought else text)
      && CallCount(items, call) == Occurs(bufs, order, call)
  {
    var (a, b, c) := (ThoughtItems(thought), TextItems(text, status, shown), CallsInOrder(bufs, order));
    ItemsConcat(a + b, c, part, call);
    ItemsConcat(a, b, part, call);
    ThoughtItemsSay(thought, part, call);
    TextItemsSay(text, status, shown, part, call);
    CallsSay(bufs, order, part, call);
  }

  lemma {:induction false} StreamedSays(chunks: seq<Chunk>, orders: seq<seq<int>>, status: ResponseState.Status, part: Part, call: ToolCall)
    requires Cuts(chunks) && |orders| == |chunks| && Walks(chunks, orders)
    ensures var items := FinalOutput(After(BeforeDone(chunks, orders)), status);
      && TextOfItems(items, part) == KeptTexts(chunks, part)
      && CallCount(items, call) == Occurs(RunBuffers(Front(chunks)), FlushOrder(chunks, orders), call)
  {
    var es := BeforeDone(chunks, orders);
    var items := FinalOutput(After(es), status);
    BeforeDoneTells(chunks, orders);
    FinalOutputSays(es, status);
    IdsSayNothing(items, part, call);
    ResponseSays(ReasoningOf(es), TextOf(es), if status.Incomplete? then ItemIncomplete else ItemCompleted, true,
                 RunBuffers(Front(chunks)), FlushOrder(chunks, orders), part, call);
  }

  lemma {:induction false} UnnamedSpoken(whole: Completion, id: nat -> ItemId, from: nat)
    ensures AllUnnamed(ReasoningItems(whole, id)) == ThoughtItems(whole.reasoning.GetOr(""))
    ensures AllUnnamed(MessageItems(whole, id, from))
         == TextItems(whole.content.GetOr(""), ItemCompleted, whole.content.GetOr("") != "")
  {
  }

  lemma {:induction false} UnnamedCalls(calls: seq<ToolCall>, id: nat -> ItemId, from: nat)
    ensures AllUnnamed(CallItems(calls, id, from)) == seq(|calls|, i requires 0 <= i < |calls| => CallItem(0, calls[i]))
  {
  }

  lemma {:induction false} UnnamedWhole(whole: Completion, id: nat -> ItemId)
    ensures AllUnnamed(WholeItems(whole, id)) ==
      ThoughtItems(whole.reasoning.GetOr("")) + TextItems(whole.content.GetOr(""), ItemCompleted, whole.content.GetOr("") != "")
      + seq(|whole.toolCalls|, i requires 0 <= i < |whole.toolCalls| => CallItem(0, whole.toolCalls[i]))
  {
    hide AllUnnamed, ReasoningItems, MessageItems, CallItems, ThoughtItems, TextItems;
    var thought := ReasoningItems(whole, id);
    var text := MessageItems(whole, id, |thought|);
    UnnamedConcat(thought + text, CallItems(whole.toolCalls, id, |thought| + |text|));
    UnnamedConcat(thought, text);
    UnnamedSpoken(whole, id, |thought|);
    UnnamedCalls(whole.toolCalls, id, |thought| + |text|);
  }

  /** The calls of the whole message are the buffered ones. */
  lemma {:induction false} WholeCallsAreBuffered(chunks: seq<Chunk>, whole: Completion, indices: seq<int>)
    requires Cuts(chunks) && Assembles(chunks, whole, indices)
    ensures seq(|whole.toolCalls|, i requires 0 <= i < |whole.toolCalls| => CallItem(0, whole.toolCalls[i]))
            == CallsInOrder(AddFragments(map[], FragmentsIn(chunks)), indices)
  {
    var bufs := AddFragments(map[], FragmentsIn(chunks));
    forall i | 0 <= i < |indices|
      ensures whole.toolCalls[i] == BufferedCall(At(bufs, indices[i]))
    {
      BuffersHoldCalls(FragmentsIn(chunks), indices[i]);
    }
  }

  lemma {:induction false} WholeSays(chunks: seq<Chunk>, whole: Completion, indices: seq<int>, id: nat -> ItemId, part: Part, call: ToolCall)
    requires Cuts(chunks) && Assembles(chunks, whole, indices)
    ensures var items := WholeItems(whole, id);
      && TextOfItems(items, part) == Texts(chunks, part)
      && CallCount(items, call) == Occurs(AddFragments(map[], FragmentsIn(chunks)), indices, call)
  {
    var items := WholeItems(whole, id);
    var bufs := AddFragments(map[], FragmentsIn(chunks));
    IdsSayNothing(items, part, call);
    UnnamedWhole(whole, id);
    WholeCallsAreBuffered(chunks, whole, indices);
    ResponseSays(Texts(chunks, Thought), Texts(chunks, Content), ItemCompleted, Texts(chunks, Content) != "", bufs, indices, part, call);
  }

  /** The loop ends with the finish chunk, whatever follows; usage that is sent in a
      chunk of its own is not seen. */
  lemma {:induction false} StreamStops(chunks: seq<Chunk>, orders: seq<seq<int>>, rest: seq<ProviderEvent>, cancelled: nat -> bool)
    requires Cuts(chunks) && |orders| == |chunks| && Walks(chunks, orders)
    requires forall i :: !cancelled(i)
    ensures var es := RunEvents(chunks, orders) + rest; var n := StopAt(es, cancelled, 0);
      && es[..n] == BeforeDone(chunks, orders)
      && ExitOf(es, cancelled, n)
         == Finished(StatusOf(Some(MapFinishReasonToItemStatus(FinishReasonOf(chunks)))), chunks[|chunks| - 1].usage)
  {
    var done := Done(Some(MapFinishReasonToItemStatus(FinishReasonOf(chunks))), chunks[|chunks| - 1].usage);
    EventsOfCut(chunks, orders);
    NothingHaltsBefore(chunks, orders);
    StopsAtDone(BeforeDone(chunks, orders), done, rest, cancelled);
  }

  /** Two responses have every call equally often. */
  ghost predicate SameCallCounts(a: seq<Item>, b: seq<Item>) {
    forall call :: CallCount(a, call) == CallCount(b, call)
  }

  lemma {:induction false} TextsAgainstWhole(
    chunks: seq<Chunk>, orders: seq<seq<int>>, status: ResponseState.Status,
    whole: Completion, indices: seq<int>, id: nat -> ItemId, part: Part)
    requires Cuts(chunks) && |orders| == |chunks| && Walks(chunks, orders) && Assembles(chunks, whole, indices)
    ensures TextOfItems(FinalOutput(After(BeforeDone(chunks, orders)), status), part) == TextOfItems(WholeItems(whole, id), part)
       <==> SkimsOnlyEmpty(chunks, part)
  {
    StreamedSays(chunks, orders, status, part, ToolCall("", "", ""));
    WholeSays(chunks, whole, indices, id, part, ToolCall("", "", ""));
    KeptExactlyWhen(chunks, part);
  }

  lemma {:induction false} CallsAgainstWhole(
    chunks: seq<Chunk>, orders: seq<seq<int>>, status: ResponseState.Status,
    whole: Completion, indices: seq<int>, id: nat -> ItemId)
    requires Cuts(chunks) && |orders| == |chunks| && Walks(chunks, orders) && Assembles(chunks, whole, indices)
    ensures SameCallCounts(FinalOutput(After(BeforeDone(chunks, orders)), status), WholeItems(whole, id))
       <==> AddsNothing(RunBuffers(Front(chunks)), FinishFragments(chunks))
  {
    var (bufs, frags) := (RunBuffers(Front(chunks)), FinishFragments(chunks));
    var (order, all) := (FlushOrder(chunks, orders), AddFragments(map[], FragmentsIn(chunks)));
    var (streamed, items) := (FinalOutput(After(BeforeDone(chunks, orders)), status), WholeItems(whole, id));
    EventsOfCut(chunks, orders);
    BodyBuffers(Front(chunks));
    AddConcat(map[], FragmentsIn(Front(chunks)), frags);
    SameCallsExactlyWhen(bufs, frags, order, indices);
    CountsAreOccurrences(chunks, orders, status, whole, indices, id);
  }

  lemma {:induction false} CountsAreOccurrences(
    chunks: seq<Chunk>, orders: seq<seq<int>>, status: ResponseState.Status,
    whole: Completion, indices: seq<int>, id: nat -> ItemId)
    requires Cuts(chunks) && |orders| == |chunks| && Walks(chunks, orders) && Assembles(chunks, whole, indices)
    ensures SameCallCounts(FinalOutput(After(BeforeDone(chunks, orders)), status), WholeItems(whole, id))
       <==> SameCalls(RunBuffers(Front(chunks)), FlushOrder(chunks, orders), AddFragments(map[], FragmentsIn(chunks)), indices)
  {
    forall call
      ensures CallCount(FinalOutput(After(BeforeDone(chunks, orders)), status), call)
           == Occurs(RunBuffers(Front(chunks)), FlushOrder(chunks, orders), call)
      ensures CallCount(WholeItems(whole, id), call) == Occurs(AddFragments(map[], FragmentsIn(chunks)), indices, call)
    {
      StreamedSays(chunks, orders, status, Content, call);
      WholeSays(chunks, whole, indices, id, Content, call);
    }
  }

  /** Length and content_filter are incomplete in a stream; in a plain response
      content_filter has failed. Every other reason is a completion in both. */
  lemma {:induction false} StatusesAgree(reason: FinishReason)
    ensures StatusOf(Some(MapFinishReasonToItemStatus(reason)))
         == if reason.Length? || reason.ContentFilter? then ResponseState.Incomplete else ResponseState.Completed
    ensures MapFinishReason(reason)
         == if reason.Length? then ResponseState.Incomplete
            else if reason.ContentFilter? then ResponseState.Failed
            else ResponseState.Completed
  {
  }

  /** The last event of the response to these provider events against the items of the
      whole message: the reasoning and the text are the same exactly when no chunk that
      finishes or has tool calls carries any, and the calls are the same exactly when the
      finish chunk begins none and adds no arguments. The statuses differ just for
      content_filter. */
  ghost predicate Compares(
    chunks: seq<Chunk>, es: seq<ProviderEvent>, cancelled: nat -> bool, includeUsage: bool,
    items: seq<Item>, status: ResponseState.Status)
    requires Cuts(chunks)
  {
    var last := LastOf(es, cancelled, includeUsage);
    && (if FinishReasonOf(chunks).Length? || FinishReasonOf(chunks).ContentFilter? then last.ResponseIncomplete? else last.ResponseCompleted?)
    && last.resp.status == (if last.ResponseIncomplete? then ResponseState.Incomplete else ResponseState.Completed)
    && (last.resp.status == status <==> !FinishReasonOf(chunks).ContentFilter?)
    && last.resp.usage == (if includeUsage then chunks[|chunks| - 1].usage else None)
    && (forall part :: TextOfItems(last.resp.output, part) == TextOfItems(items, part) <==> SkimsOnlyEmpty(chunks, part))
    && (SameCallCounts(last.resp.output, items) <==> AddsNothing(RunBuffers(Front(chunks)), FinishFragments(chunks)))
  }

  /** What the response to a stream of one completion says against TranslateResponse on
      the assembled message, however the completion was cut, in whatever order its tool
      calls were flushed and whatever follows the finish chunk. */
  lemma {:induction false} ChunkingInvariance(
    chunks: seq<Chunk>, orders: seq<seq<int>>, rest: seq<ProviderEvent>, cancelled: nat -> bool, includeUsage: bool,
    whole: Completion, indices: seq<int>, id: nat -> ItemId)
    requires Cuts(chunks) && |orders| == |chunks| && Walks(chunks, orders) && Assembles(chunks, whole, indices)
    requires forall i :: !cancelled(i)
    ensures Compares(chunks, RunEvents(chunks, orders) + rest, cancelled, includeUsage,
                     WholeItems(whole, id), MapFinishReason(whole.finishReason))
  {
    var status := StatusOf(Some(MapFinishReasonToItemStatus(FinishReasonOf(chunks))));
    StreamStops(chunks, orders, rest, cancelled);
    LastOfCut(chunks, orders, rest, cancelled, includeUsage);
    StatusesAgree(whole.finishReason);
    forall part
      ensures TextOfItems(FinalOutput(After(BeforeDone(chunks, orders)), status), part) == TextOfItems(WholeItems(whole, id), part)
         <==> SkimsOnlyEmpty(chunks, part)
    {
      TextsAgainstWhole(chunks, orders, status, whole, indices, id, part);
    }
    CallsAgainstWhole(chunks, orders, status, whole, indices, id);
  }

  /** The last event of a loop that has finished with these events. */
  lemma {:induction false} LastWhenFinished(
    es: seq<ProviderEvent>, before: seq<ProviderEvent>, cancelled: nat -> bool,
    status: ResponseState.Status, usage: Option<Usage>, includeUsage: bool)
    requires StopAt(es, cancelled, 0) == |before| <= |es| && es[..|before|] == before
    requires ExitOf(es, cancelled, |before|) == Finished(status, usage)
    ensures var last := LastOf(es, cancelled, includeUsage);
      && (if status.Failed? then last.ResponseFailed?
          else if status.Incomplete? then last.ResponseIncomplete?
          else last.ResponseCompleted?)
      && last.resp.status == status && last.resp.usage == (if includeUsage then usage else None)
      && last.resp.output == FinalOutput(After(before), status)
  {
    hide LastOf, Closing, After, FinalOutput;
    LastIsClosing(es, cancelled, includeUsage);
    ClosingEnds(After(before), Finished(status, usage), includeUsage);
  }

  lemma {:induction false} LastOfCut(
    chunks: seq<Chunk>, orders: seq<seq<int>>, rest: seq<ProviderEvent>, cancelled: nat -> bool, includeUsage: bool)
    requires Cuts(chunks) && |orders| == |chunks| && Walks(chunks, orders)
    requires forall i :: !cancelled(i)
    ensures var status := StatusOf(Some(MapFinishReasonToItemStatus(FinishReasonOf(chunks))));
      var last := LastOf(RunEvents(chunks, orders) + rest, cancelled, includeUsage);
      && (if status.Incomplete? then last.ResponseIncomplete? else last.ResponseCompleted?)
      && last.resp.status == status
      && last.resp.usage == (if includeUsage then chunks[|chunks| - 1].usage else None)
      && last.resp.output == FinalOutput(After(BeforeDone(chunks, orders)), status)
  {
    hide LastOf, RunEvents, BeforeDone, Closing, After, FinalOutput, StopAt, ExitOf;
    var es := RunEvents(chunks, orders) + rest;
    StreamStops(chunks, orders, rest, cancelled);
    LastWhenFinished(es, BeforeDone(chunks, orders), cancelled,
                     StatusOf(Some(MapFinishReasonToItemStatus(FinishReasonOf(chunks)))), chunks[|chunks| - 1].usage, includeUsage);
    StatusesAgree(FinishReasonOf(chunks));
  }

  // ----- What the parser sends -----

  lemma {:induction false} RunStarts(chunks: seq<Chunk>, orders: seq<seq<int>>, k: nat)
    requires |orders| == |chunks| && Walks(chunks, orders) && k <= |chunks|
    ensures Walks(chunks[..k], orders[..k])
    ensures RunEvents(chunks[..k], orders[..k]) <= RunEvents(chunks, orders)
    decreases |chunks|
  {
    hide ChunkEvents, Flushes, Lists, RunBuffers;
    var n := |chunks|;
    if k == n {
      assert chunks[..k] == chunks && orders[..k] == orders;
    } else {
      RunStarts(chunks[..n - 1], orders[..n - 1], k);
      assert chunks[..n - 1][..k] == chunks[..k] && orders[..n - 1][..k] == orders[..k];
    }
  }

  /** What is sent for chunks that start with one completion is its run, and some rest. */
  lemma {:induction false} ChannelStarts(chunks: seq<Chunk>, error: Option<string>, channel: seq<ProviderEvent>, k: nat)
    returns (orders: seq<seq<int>>, rest: seq<ProviderEvent>)
    requires Reports(chunks, error, channel) && k <= |chunks|
    ensures |orders| == k && Walks(chunks[..k], orders)
    ensures channel == RunEvents(chunks[..k], orders) + rest
  {
    hide RunEvents, Walks;
    var sent := if error.None? then channel else channel[..|channel| - 1];
    var walks: seq<seq<int>> :| IsTranslation(chunks, walks, sent);
    RunStarts(chunks, walks, k);
    orders := walks[..k];
    rest := channel[|RunEvents(chunks[..k], orders)|..];
  }

  lemma {:induction false} ParsedAgainstWhole(
    chunks: seq<Chunk>, error: Option<string>, channel: seq<ProviderEvent>, k: nat, cancelled: nat -> bool, includeUsage: bool,
    whole: Completion, indices: seq<int>, id: nat -> ItemId)
    requires Reports(chunks, error, channel)
    requires k <= |chunks| && Cuts(chunks[..k]) && Assembles(chunks[..k], whole, indices)
    requires forall i :: !cancelled(i)
    ensures Compares(chunks[..k], channel, cancelled, includeUsage, WholeItems(whole, id), MapFinishReason(whole.finishReason))
  {
    var orders, rest := ChannelStarts(chunks, error, channel, k);
    ChunkingInvariance(chunks[..k], orders, rest, cancelled, includeUsage, whole, indices, id);
  }

  /** Both translations of one completion: what the parser sends for lines whose chunks
      start with it, and the translation of its message. */
  method TranslateBothWays(
    lines: seq<string>, decode: string -> Option<Chunk>, cancelled: nat -> bool, includeUsage: bool, readError: Option<string>,
    whole: Completion, usage: Option<Usage>, id: nat -> ItemId, ghost k: nat, ghost indices: seq<int>)
    returns (channel: seq<ProviderEvent>, pr: ProviderResponse)
    requires forall i :: !cancelled(i)
    requires var chunks := Chunks(lines, decode);
      k <= |chunks| && Cuts(chunks[..k]) && Assembles(chunks[..k], whole, indices)
    ensures Compares(Chunks(lines, decode)[..k], channel, cancelled, includeUsage, pr.items, pr.status)
  {
    channel := ParseSSEStream(lines, decode, cancelled, readError);
    pr := TranslateResponse([whole], usage, id);
    ghost var error := if Ends(lines, decode) then None else readError;
    ParsedAgainstWhole(Chunks(lines, decode), error, channel, k, cancelled, includeUsage, whole, indices, id);
  }

  // ----- What gets lost -----

  function DeltaWith(part: Part, text: string, frags: seq<Fragment>): Delta {
    if part.Content? then Delta("", Some(text), frags, None) else Delta("", None, frags, Some(text))
  }

  function BodyChunk(delta: Delta): Chunk {
    Chunk([Choice(delta, None)], None)
  }

  function FinishChunk(delta: Delta): Chunk {
    Chunk([Choice(delta, Some(Stop))], None)
  }

  const NEVER: nat -> bool := _ => false

  const NOTHING: Delta := Delta("", None, [], None)

  /** Text and reasoning get lost in a chunk that has a tool call as well. */
  lemma {:induction false} MixedChunkLosesText(part: Part)
    ensures exists chunks :: Cuts(chunks) && !IsFinish(chunks[0]) && KeptTexts(chunks, part) != Texts(chunks, part)
  {
    var chunks := [BodyChunk(DeltaWith(part, "a", [Fragment(0, "id", "name", "")])), FinishChunk(NOTHING)];
    assert Skims(chunks[0]) && Piece(chunks[0], part) == "a";
    assert Cuts(chunks) && !IsFinish(chunks[0]);
    KeptExactlyWhen(chunks, part);
  }

  /** So do those of a finish chunk. */
  lemma {:induction false} FinishChunkLosesText(part: Part)
    ensures exists chunk :: Cuts([chunk]) && DeltaOf(chunk).toolCalls == [] && KeptTexts([chunk], part) != Texts([chunk], part)
  {
    var chunk := FinishChunk(DeltaWith(part, "a", []));
    var chunks := [chunk];
    assert Skims(chunks[0]) && Piece(chunks[0], part) == "a";
    assert Cuts([chunk]) && DeltaOf(chunk).toolCalls == [];
    KeptExactlyWhen([chunk], part);
  }

  /** However it is flushed and followed, and whatever the message: the stream of these
      chunks never ends with the calls of the message. */
  ghost predicate LosesCalls(chunks: seq<Chunk>)
    requires Cuts(chunks)
  {
    forall orders, rest, includeUsage, whole, indices, id |
      |orders| == |chunks| && Walks(chunks, orders) && Assembles(chunks, whole, indices) ::
      !SameCallCounts(LastOf(RunEvents(chunks, orders) + rest, NEVER, includeUsage).resp.output, WholeItems(whole, id))
  }

  lemma {:induction false} LosesCallsWhen(chunks: seq<Chunk>)
    requires Cuts(chunks) && !AddsNothing(RunBuffers(Front(chunks)), FinishFragments(chunks))
    ensures LosesCalls(chunks) && RunBuffers(Front(chunks)) != AddFragments(map[], FragmentsIn(chunks))
  {
    hide LastOf, WholeItems, SameCallCounts, Assembles, RunEvents, Walks;
    ToolCallsExactlyWhen(chunks);
    forall orders, rest, includeUsage, whole, indices, id |
      |orders| == |chunks| && Walks(chunks, orders) && Assembles(chunks, whole, indices)
      ensures !SameCallCounts(LastOf(RunEvents(chunks, orders) + rest, NEVER, includeUsage).resp.output, WholeItems(whole, id))
    {
      ChunkingInvariance(chunks, orders, rest, NEVER, includeUsage, whole, indices, id);
    }
  }

  /** And the arguments that a finish chunk adds to a call that has begun. */
  lemma {:induction false} FinishChunkLosesArguments()
    ensures exists chunks ::
      && Cuts(chunks) && (forall f | f in FinishFragments(chunks) :: f.index in RunBuffers(Front(chunks)))
      && RunBuffers(Front(chunks)) != AddFragments(map[], FragmentsIn(chunks)) && LosesCalls(chunks)
  {
    var (first, more) := (Fragment(0, "id", "name", "a"), Fragment(0, "", "", "b"));
    var chunks := [BodyChunk(NOTHING.(toolCalls := [first])), FinishChunk(NOTHING.(toolCalls := [more]))];
    assert Cuts(chunks);
    BeginsCall(chunks, first);
    assert more in FinishFragments(chunks);
    LosesCallsWhen(chunks);
  }

  lemma {:induction false} BeginsCall(chunks: seq<Chunk>, f: Fragment)
    requires |chunks| == 2 && chunks[0] == BodyChunk(NOTHING.(toolCalls := [f]))
    ensures f.index in RunBuffers(Front(chunks))
  {
    assert Front(chunks) == [chunks[0]] && Front(chunks)[..0] == [] && [f][..0] == [];
  }

  /** A chunk that has usage and no choice ends the stream, even before the finish chunk:
      the response is completed with what was kept so far, and no call in it is done. */
  lemma {:induction false} UsageChunkEndsStream(
    body: seq<Chunk>, orders: seq<seq<int>>, usage: Usage, order: seq<int>, rest: seq<ProviderEvent>, cancelled: nat -> bool,
    includeUsage: bool, part: Part, call: ToolCall)
    requires AllBody(body) && |orders| == |body|
    requires forall i :: !cancelled(i)
    ensures var es := RunEvents(body, orders) + ChunkEvents(Chunk([], Some(usage)), RunBuffers(body), order) + rest;
      var last := LastOf(es, cancelled, includeUsage);
      && last.ResponseCompleted? && last.resp.status == ResponseState.Completed
      && last.resp.usage == (if includeUsage then Some(usage) else None)
      && TextOfItems(last.resp.output, part) == KeptTexts(body, part) && CallCount(last.resp.output, call) == 0
  {
    hide RunEvents, After, FinalOutput, TextOf, ReasoningOf, KeptTexts, TextOfItems, CallCount, CallsDone, LastOf, StopAt, ExitOf;
    var before := RunEvents(body, orders);
    BodyTells(body, orders, 0);
    StopsAtDone(before, Done(None, Some(usage)), rest, cancelled);
    NoCallDoneSays(before, ResponseState.Completed, part, call);
    LastWhenFinished(before + [Done(None, Some(usage))] + rest, before, cancelled, ResponseState.Completed, Some(usage), includeUsage);
  }

  /** A run in which no call was completed says its reasoning and its text. */
  lemma {:induction false} NoCallDoneSays(es: seq<ProviderEvent>, status: ResponseState.Status, part: Part, call: ToolCall)
    requires CallsDone(es) == []
    ensures var output := FinalOutput(After(es), status);
      && TextOfItems(output, part) == (if part.Thought? then ReasoningOf(es) else TextOf(es))
      && CallCount(output, call) == 0
  {
    FinalOutputSays(es, status);
    IdsSayNothing(FinalOutput(After(es), status), part, call);
    if !SawText(es) {
      NoTextUnseen(es);
    }
    assert CallsInOrder(map[], []) == [];
    ResponseSays(ReasoningOf(es), TextOf(es), if status.Incomplete? then ItemIncomplete else ItemCompleted, SawText(es),
                 map[], [], part, call);
  }

  lemma {:induction false} NoTextUnseen(es: seq<ProviderEvent>)
    requires !SawText(es)
    ensures TextOf(es) == ""
  {
    if es != [] {
      NoTextUnseen(es[..|es| - 1]);
    }
  }
}
