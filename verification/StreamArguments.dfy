/** The arguments of a tool call as they are streamed to the client, delta by delta
    (pkg/engine/events.go, mapToolCallDelta), and as the final item has them. */
module StreamArguments {
  import opened Wrappers
  import opened ProviderEvents
  import opened StreamEvents
  import opened StreamRun
  import opened StreamProtocol
  import opened StreamOutput
  import opened Sequences
  import opened Api

  /** The argument deltas written for the item with this id. */
  function ArgumentsIn(log: seq<StreamEvent>, id: ItemId): string {
    if log == [] then ""
    else
      var last := log[|log| - 1];
      ArgumentsIn(log[..|log| - 1], id) + (if last.ArgumentsDelta? && last.itemID == id then last.delta else "")
  }

  /** The argument deltas that the provider sent for an index. */
  function ArgumentsSent(es: seq<ProviderEvent>, index: int): string {
    if es == [] then ""
    else ArgumentsSent(es[..|es| - 1], index) + ArgumentsOfEvent(es[|es| - 1], index)
  }

  function ArgumentsOfEvent(ev: ProviderEvent, index: int): string {
    if ev.ToolCallDelta? && ev.index == index then ev.delta else ""
  }

  lemma {:induction false} ArgumentsConcat(a: seq<StreamEvent>, b: seq<StreamEvent>, id: ItemId)
    ensures ArgumentsIn(a + b, id) == ArgumentsIn(a, id) + ArgumentsIn(b, id)
    decreases |b|
  {
    if b == [] {
      assert a + b == a;
    } else {
      var (init, last) := (b[..|b| - 1], b[|b| - 1]);
      assert (a + b)[..|a + b| - 1] == a + init;
      ArgumentsConcat(a, init, id);
      Assoc(ArgumentsIn(a, id), ArgumentsIn(init, id), if last.ArgumentsDelta? && last.itemID == id then last.delta else "");
    }
  }

  predicate NoArguments(log: seq<StreamEvent>) {
    forall i | 0 <= i < |log| :: !log[i].ArgumentsDelta?
  }

  lemma {:induction false} NoneWithout(log: seq<StreamEvent>, id: ItemId)
    requires NoArguments(log)
    ensures ArgumentsIn(log, id) == ""
  {
    if log != [] {
      NoneWithout(log[..|log| - 1], id);
    }
  }

  /** No arguments are written for an item that has not been announced. */
  lemma {:induction false} NoneUnannounced(log: seq<StreamEvent>, id: ItemId)
    requires Proper(log) && !Added(log, id)
    ensures ArgumentsIn(log, id) == ""
  {
    if log != [] {
      NoneUnannounced(log[..|log| - 1], id);
    }
  }

  lemma {:induction false} NoneUnseen(es: seq<ProviderEvent>, index: int)
    requires !SawCall(es, index)
    ensures ArgumentsSent(es, index) == ""
  {
    if es != [] {
      NoneUnseen(es[..|es| - 1], index);
    }
  }

  // ----- One step -----

  lemma {:induction false} OnlyDeltasHaveArguments(a: Assembly, ev: ProviderEvent)
    requires !ev.ToolCallDelta?
    ensures NoArguments(OnProviderEvent(a, ev).events) && OnProviderEvent(a, ev).after.toolItems == a.toolItems
  {
  }

  lemma {:induction false} LastArgument(init: seq<StreamEvent>, last: StreamEvent, id: ItemId)
    requires NoArguments(init) && last.ArgumentsDelta?
    ensures ArgumentsIn(init + [last], id) == (if last.itemID == id then last.delta else "")
  {
    NoneWithout(init, id);
    assert (init + [last])[..|init|] == init;
  }

  lemma {:induction false} OpeningHasNoArguments(a: Assembly, index: int, callID: string, name: string)
    ensures var r := OpenToolCall(a, index, callID, name); NoArguments(r.events) && index in r.after.toolItems
  {
  }

  /** A delta goes to the item of its index, and to no other. */
  lemma {:induction false} DeltaArguments(a: Assembly, index: int, callID: string, name: string, delta: string, id: ItemId)
    ensures var s := OnToolCallDelta(a, index, callID, name, delta);
      && index in s.after.toolItems
      && ArgumentsIn(s.events, id) == (if s.after.toolItems[index].itemID == id then delta else "")
  {
    OpeningHasNoArguments(a, index, callID, name);
    var r := OpenToolCall(a, index, callID, name);
    if delta == "" {
      NoneWithout(r.events, id);
    } else {
      var item := r.after.toolItems[index];
      LastArgument(r.events, ArgumentsDelta(r.after.number, delta, item.itemID, item.outputIndex), id);
    }
  }

  // ----- Every run -----

  /** Different calls have different items, and each item has got its arguments. */
  ghost predicate ArgumentsFaithful(r: Run, es: seq<ProviderEvent>) {
    && (forall j, k | j in r.a.toolItems && k in r.a.toolItems && j != k :: r.a.toolItems[j].itemID != r.a.toolItems[k].itemID)
    && (forall k | k in r.a.toolItems :: ArgumentsIn(r.log, r.a.toolItems[k].itemID) == ArgumentsSent(es, k))
  }

  lemma {:induction false} StartTextArguments(r: Run, id: ItemId)
    ensures ArgumentsIn(StartText(r).log, id) == ArgumentsIn(r.log, id) && StartText(r).a.toolItems == r.a.toolItems
  {
    if !r.itemAdded {
      NoneWithout(LifecycleStart(r.a), id);
      ArgumentsConcat(r.log, LifecycleStart(r.a), id);
    }
  }

  lemma {:induction false} PlainStepArguments(r: Run, es: seq<ProviderEvent>, ev: ProviderEvent)
    requires ArgumentsFaithful(r, es) && !ev.ToolCallDelta?
    ensures ArgumentsFaithful(Consume(r, ev), es + [ev])
  {
    assert (es + [ev])[..|es|] == es;
    var b := if IsText(ev) then StartText(r) else r;
    var s := OnProviderEvent(b.a, ev);
    OnlyDeltasHaveArguments(b.a, ev);
    forall k | k in r.a.toolItems
      ensures ArgumentsIn(b.log + s.events, r.a.toolItems[k].itemID) == ArgumentsIn(r.log, r.a.toolItems[k].itemID)
    {
      var id := r.a.toolItems[k].itemID;
      StartTextArguments(r, id);
      NoneWithout(s.events, id);
      ArgumentsConcat(b.log, s.events, id);
    }
    StartTextArguments(r, 0);
  }

  lemma {:induction false} DeltaItems(a: Assembly, index: int, callID: string, name: string, delta: string)
    ensures var items := OnToolCallDelta(a, index, callID, name, delta).after.toolItems;
      items == (if index in a.toolItems then a.toolItems else a.toolItems[index := ToolCallItem(a.issued + 1, a.outputIndex + 1)])
  {
  }

  lemma {:induction false} IdsBelow(r: Run, k: int)
    requires Linked(r.a, r.itemAdded, r.log) && k in r.a.toolItems
    ensures r.a.toolItems[k].itemID <= r.a.issued
  {
  }

  lemma {:induction false} NewItemHasNone(r: Run, es: seq<ProviderEvent>, k: int)
    requires CallsFaithful(r, es) && Linked(r.a, r.itemAdded, r.log) && k !in r.a.toolItems
    ensures ArgumentsIn(r.log, r.a.issued + 1) == "" && ArgumentsSent(es, k) == ""
  {
    NoneUnannounced(r.log, r.a.issued + 1);
    NoneUnseen(es, k);
  }

  lemma {:induction false} DeltaStepAt(r: Run, es: seq<ProviderEvent>, ev: ProviderEvent, s: Step, k: int)
    requires ArgumentsFaithful(r, es) && ev.ToolCallDelta?
    requires forall j | j in r.a.toolItems :: r.a.toolItems[j].itemID <= r.a.issued
    requires k !in r.a.toolItems ==> ArgumentsIn(r.log, r.a.issued + 1) == "" && ArgumentsSent(es, k) == ""
    requires s == OnToolCallDelta(r.a, ev.index, ev.callID, ev.name, ev.delta) && k in s.after.toolItems
    ensures ArgumentsIn(r.log + s.events, s.after.toolItems[k].itemID) == ArgumentsSent(es, k) + ArgumentsOfEvent(ev, k)
  {
    hide OnToolCallDelta, ArgumentsIn, ArgumentsSent;
    var id := s.after.toolItems[k].itemID;
    DeltaItems(r.a, ev.index, ev.callID, ev.name, ev.delta);
    DeltaArguments(r.a, ev.index, ev.callID, ev.name, ev.delta, id);
    ArgumentsConcat(r.log, s.events, id);
    assert s.after.toolItems[ev.index].itemID == id <==> k == ev.index;
  }

  lemma {:induction false} DeltaStepEach(r: Run, es: seq<ProviderEvent>, ev: ProviderEvent, k: int)
    requires ArgumentsFaithful(r, es) && CallsFaithful(r, es) && Linked(r.a, r.itemAdded, r.log) && ev.ToolCallDelta?
    requires k in OnToolCallDelta(r.a, ev.index, ev.callID, ev.name, ev.delta).after.toolItems
    ensures var s := OnToolCallDelta(r.a, ev.index, ev.callID, ev.name, ev.delta);
      ArgumentsIn(r.log + s.events, s.after.toolItems[k].itemID) == ArgumentsSent(es, k) + ArgumentsOfEvent(ev, k)
  {
    forall j | j in r.a.toolItems
      ensures r.a.toolItems[j].itemID <= r.a.issued
    {
      IdsBelow(r, j);
    }
    if k !in r.a.toolItems {
      NewItemHasNone(r, es, k);
    }
    DeltaStepAt(r, es, ev, OnToolCallDelta(r.a, ev.index, ev.callID, ev.name, ev.delta), k);
  }

  lemma {:induction false} DeltaStepArguments(r: Run, es: seq<ProviderEvent>, ev: ProviderEvent)
    requires ArgumentsFaithful(r, es) && CallsFaithful(r, es) && Linked(r.a, r.itemAdded, r.log) && ev.ToolCallDelta?
    ensures ArgumentsFaithful(Consume(r, ev), es + [ev])
  {
    assert (es + [ev])[..|es|] == es;
    var s := OnToolCallDelta(r.a, ev.index, ev.callID, ev.name, ev.delta);
    DeltaItems(r.a, ev.index, ev.callID, ev.name, ev.delta);
    forall k | k in s.after.toolItems
      ensures ArgumentsIn(r.log + s.events, s.after.toolItems[k].itemID) == ArgumentsSent(es, k) + ArgumentsOfEvent(ev, k)
    {
      DeltaStepEach(r, es, ev, k);
    }
  }

  /** After any provider events, the argument deltas a client got for the item of an
      index are together those that the provider sent for it. */
  lemma {:induction false} AfterArguments(es: seq<ProviderEvent>)
    ensures ArgumentsFaithful(After(es), es)
  {
    if es != [] {
      var (init, ev) := (es[..|es| - 1], es[|es| - 1]);
      AfterArguments(init);
      AfterFaithful(init);
      AfterLinked(init);
      ConsumeArguments(After(init), init, ev);
      AfterOneMore(es);
    }
  }

  lemma {:induction false} ConsumeArguments(r: Run, es: seq<ProviderEvent>, ev: ProviderEvent)
    requires ArgumentsFaithful(r, es) && CallsFaithful(r, es) && Linked(r.a, r.itemAdded, r.log)
    ensures ArgumentsFaithful(Consume(r, ev), es + [ev])
  {
    if ev.ToolCallDelta? {
      DeltaStepArguments(r, es, ev);
    } else {
      PlainStepArguments(r, es, ev);
    }
  }
}

/** A streamed completion, seen by a client that adds up argument deltas
    (pkg/provider/openaicompat/stream.go, pkg/engine/events.go). */
module ChunkArguments {
  import opened ProviderEvents
  import opened ChatStream
  import opened FragmentAssembly
  import opened ChunkInvariance
  import opened StreamRun
  import opened StreamOutput
  import opened StreamArguments

  lemma {:induction false} SentConcat(a: seq<ProviderEvent>, b: seq<ProviderEvent>, index: int)
    ensures ArgumentsSent(a + b, index) == ArgumentsSent(a, index) + ArgumentsSent(b, index)
    decreases |b|
  {
    if b == [] {
      assert a + b == a;
    } else {
      assert (a + b)[..|a + b| - 1] == a + b[..|b| - 1];
      SentConcat(a, b[..|b| - 1], index);
    }
  }

  lemma {:induction false} NoneSent(es: seq<ProviderEvent>, index: int)
    requires forall i | 0 <= i < |es| :: !es[i].ToolCallDelta?
    ensures ArgumentsSent(es, index) == ""
  {
    if es != [] {
      NoneSent(es[..|es| - 1], index);
    }
  }

  lemma {:induction false} FragmentsSend(bufs: Buffers, frags: seq<Fragment>, index: int)
    ensures ArgumentsSent(FragmentEvents(bufs, frags), index) == ArgumentsOf(frags, index)
    decreases |frags|
  {
    if frags != [] {
      var init := frags[..|frags| - 1];
      FragmentsSend(bufs, init, index);
      assert (FragmentEvents(bufs, init) + [FragmentEvent(AddFragments(bufs, init), frags[|frags| - 1])])[..|FragmentEvents(bufs, init)|]
          == FragmentEvents(bufs, init);
    }
  }

  lemma {:induction false} ArgumentsOfConcat(a: seq<Fragment>, b: seq<Fragment>, index: int)
    ensures ArgumentsOf(a + b, index) == ArgumentsOf(a, index) + ArgumentsOf(b, index)
    decreases |b|
  {
    if b == [] {
      assert a + b == a;
    } else {
      assert (a + b)[..|a + b| - 1] == a + b[..|b| - 1];
      ArgumentsOfConcat(a, b[..|b| - 1], index);
    }
  }

  lemma {:induction false} ChunkSends(c: Chunk, bufs: Buffers, order: seq<int>, index: int)
    requires IsBody(c)
    ensures ArgumentsSent(ChunkEvents(c, bufs, order), index) == ArgumentsOf(DeltaOf(c).toolCalls, index)
  {
    if DeltaOf(c).toolCalls != [] {
      FragmentsSend(bufs, DeltaOf(c).toolCalls, index);
    } else {
      NoneSent(ReasoningEvents(DeltaOf(c)) + TextEvents(DeltaOf(c)), index);
    }
  }

  lemma {:induction false} BodySends(chunks: seq<Chunk>, orders: seq<seq<int>>, index: int)
    requires AllBody(chunks) && |orders| == |chunks|
    ensures ArgumentsSent(RunEvents(chunks, orders), index) == ArgumentsOf(FragmentsIn(chunks), index)
    decreases |chunks|
  {
    if chunks != [] {
      var n := |chunks| - 1;
      BodySends(chunks[..n], orders[..n], index);
      ChunkSends(chunks[n], RunBuffers(chunks[..n]), orders[n], index);
      SentConcat(RunEvents(chunks[..n], orders[..n]), ChunkEvents(chunks[n], RunBuffers(chunks[..n]), orders[n]), index);
      ArgumentsOfConcat(FragmentsIn(chunks[..n]), DeltaOf(chunks[n]).toolCalls, index);
    }
  }

  lemma {:induction false} AllSent(chunks: seq<Chunk>, orders: seq<seq<int>>, index: int)
    requires Cuts(chunks) && |orders| == |chunks|
    ensures var es := BeforeDone(chunks, orders);
      && ArgumentsSent(es, index) == ArgumentsOf(FragmentsIn(Front(chunks)), index)
      && (Mentions(FragmentsIn(Front(chunks)), index) ==> SawCall(es, index))
  {
    var body := BodyEvents(chunks, orders);
    var flush := Flushed(RunBuffers(Front(chunks)), FlushOrder(chunks, orders));
    var last := [TextDone(Piece(chunks[|chunks| - 1], Content))];
    BodySends(Front(chunks), orders[..|chunks| - 1], index);
    BodyTells(Front(chunks), orders[..|chunks| - 1], index);
    NoneSent(flush, index);
    NoneSent(last, index);
    SentConcat(body + flush, last, index);
    SentConcat(body, flush, index);
    SawConcat(body + flush, last, index);
    SawConcat(body, flush, index);
  }

  /** The argument deltas that a client got for a tool call's item are together the
      arguments of that call, which the finish chunk completes it with. */
  lemma {:induction false} DeltasAddUp(chunks: seq<Chunk>, orders: seq<seq<int>>, index: int)
    requires Cuts(chunks) && |orders| == |chunks| && Walks(chunks, orders)
    requires index in RunBuffers(Front(chunks))
    ensures var r := After(BeforeDone(chunks, orders));
      && index in r.a.toolItems
      && ArgumentsIn(r.log, r.a.toolItems[index].itemID) == RunBuffers(Front(chunks))[index].args
  {
    BodyBuffers(Front(chunks));
    BuffersHoldCalls(FragmentsIn(Front(chunks)), index);
    AllSent(chunks, orders, index);
    AfterFaithful(BeforeDone(chunks, orders));
    AfterArguments(BeforeDone(chunks, orders));
  }
}
