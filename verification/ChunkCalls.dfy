/** The tool calls of a streamed completion as a client sees them: announced, streamed and
    done under one id (pkg/provider/openaicompat/stream.go, pkg/engine/events.go). */
module ChunkCalls {
  import opened Wrappers
  import opened ProviderEvents
  import opened StreamEvents
  import opened ChatStream
  import opened FragmentAssembly
  import opened ChunkInvariance
  import opened StreamRun
  import opened StreamProtocol
  import opened StreamOutput
  import opened StreamArguments
  import opened StreamReference
  import opened ChunkArguments
  import opened Api

  // ----- What the client is told about a call -----

  /** The delta that begins the call with this index. */
  function FirstDelta(es: seq<ProviderEvent>, index: int): (ev: ProviderEvent)
    requires SawCall(es, index)
    ensures ev.ToolCallDelta?
  {
    var init := es[..|es| - 1];
    if SawCall(init, index) then FirstDelta(init, index) else es[|es| - 1]
  }

  function Announcement(es: seq<ProviderEvent>, index: int): StreamEvent
    requires SawCall(es, index)
  {
    var first := FirstDelta(es, index);
    OutputItemAdded(0, FunctionCall(CallItemOf(es, index).itemID, ItemInProgress, ToolCall(first.callID, first.name, "")),
                    CallItemOf(es, index).outputIndex)
  }

  lemma {:induction false} CallAnnounced(es: seq<ProviderEvent>, index: int)
    requires SawCall(es, index)
    ensures Announcement(es, index) in Told(es)
  {
    var (init, ev) := (es[..|es| - 1], es[|es| - 1]);
    if SawCall(init, index) {
      CallAnnounced(init, index);
    } else {
      assert Announcement(es, index) in CallBegins(init, index, ev.callID, ev.name);
      assert init + [ev] == es;
      assert Announcement(es, index) in News(init, ev);
    }
  }

  function Completion(es: seq<ProviderEvent>, ev: ProviderEvent): StreamEvent
    requires CompletesCall(ev) && SawCall(es, ev.index)
  {
    var item := ev.item.value;
    OutputItemDone(0, FunctionCall(CallItemOf(es, ev.index).itemID, item.status, item.call), CallItemOf(es, ev.index).outputIndex)
  }

  lemma {:induction false} CallCompleted(es: seq<ProviderEvent>, ev: ProviderEvent)
    requires ev in es && CompletesCall(ev)
    requires forall i | 0 <= i < |es| && es[i] == ev :: SawCall(es[..i], ev.index)
    ensures SawCall(es, ev.index) && Completion(es, ev) in Told(es)
  {
    var (init, last) := (es[..|es| - 1], es[|es| - 1]);
    assert es == init + [last];
    if ev == last {
      assert SawCall(init, ev.index);
      assert Completion(init, ev) in News(init, ev);
    } else {
      assert ev in init;
      forall i | 0 <= i < |init| && init[i] == ev
        ensures SawCall(init[..i], ev.index)
      {
        assert es[..i] == init[..i];
      }
      CallCompleted(init, ev);
    }
  }

  lemma {:induction false} UnnumberedAt(log: seq<StreamEvent>, n: nat, i: nat)
    requires i < n <= |log|
    ensures |Unnumbered(log[..n])| == n && Unnumbered(log[..n])[i] == log[i].(number := 0)
  {
  }

  /** An event that was told is in the log. */
  lemma {:induction false} ToldIsWritten(es: seq<ProviderEvent>, cancelled: nat -> bool, includeUsage: bool, e: StreamEvent) returns (i: nat)
    requires e in Told(es[..StopAt(es, cancelled, 0)]) && e.number == 0
    ensures var log := LogOf(es, cancelled, includeUsage);
      i < |log| && log[i] == e.(number := i) && Proper(log)
  {
    hide LogOf, Told, Proper, EndsAs, MessageEnds, TextIn, StopAt;
    EveryStreamIsTold(es, cancelled, includeUsage);
    EveryStreamIsProper(es, cancelled, includeUsage);
    var (told, log) := (Told(es[..StopAt(es, cancelled, 0)]), LogOf(es, cancelled, includeUsage));
    i :| 0 <= i < |told| && told[i] == e;
    UnnumberedAt(log, |log| - 1, i);
    assert log[i].number == i;
  }

  // ----- What the provider says about it -----

  lemma {:induction false} FirstOfConcat(a: seq<Fragment>, b: seq<Fragment>, index: int)
    requires Mentions(a + b, index)
    ensures Mentions(a, index) ==> FirstOf(a + b, index) == FirstOf(a, index)
    ensures !Mentions(a, index) ==> Mentions(b, index) && FirstOf(a + b, index) == FirstOf(b, index)
    decreases |b|
  {
    if b == [] {
      assert a + b == a;
    } else {
      assert (a + b)[..|a + b| - 1] == a + b[..|b| - 1];
      MentionsConcat(a, b[..|b| - 1], index);
      MentionsConcat(a, b, index);
      if Mentions(a + b[..|b| - 1], index) {
        FirstOfConcat(a, b[..|b| - 1], index);
      }
    }
  }

  lemma {:induction false} FirstDeltaConcat(a: seq<ProviderEvent>, b: seq<ProviderEvent>, index: int)
    requires SawCall(a + b, index)
    ensures SawCall(a, index) ==> FirstDelta(a + b, index) == FirstDelta(a, index)
    ensures !SawCall(a, index) ==> SawCall(b, index) && FirstDelta(a + b, index) == FirstDelta(b, index)
    decreases |b|
  {
    if b == [] {
      assert a + b == a;
    } else {
      assert (a + b)[..|a + b| - 1] == a + b[..|b| - 1];
      SawConcat(a, b[..|b| - 1], index);
      SawConcat(a, b, index);
      if SawCall(a + b[..|b| - 1], index) {
        FirstDeltaConcat(a, b[..|b| - 1], index);
      }
    }
  }

  /** The id and the name that these events announce a call with. */
  predicate Names(es: seq<ProviderEvent>, index: int, f: Fragment) {
    SawCall(es, index) && FirstDelta(es, index).callID == f.id && FirstDelta(es, index).name == f.name
  }

  lemma {:induction false} AddedIndices(bufs: Buffers, frags: seq<Fragment>, index: int)
    ensures index in AddFragments(bufs, frags) <==> index in bufs || Mentions(frags, index)
    decreases |frags|
  {
    if frags != [] {
      AddedIndices(bufs, frags[..|frags| - 1], index);
    }
  }

  lemma {:induction false} FragmentsName(bufs: Buffers, frags: seq<Fragment>, index: int)
    requires index !in bufs && Mentions(frags, index)
    ensures Names(FragmentEvents(bufs, frags), index, FirstOf(frags, index))
    decreases |frags|
  {
    var (init, last) := (frags[..|frags| - 1], frags[|frags| - 1]);
    var ev := FragmentEvent(AddFragments(bufs, init), last);
    FragmentsTell(bufs, init, index);
    FragmentsTell(bufs, frags, index);
    assert FragmentEvents(bufs, frags) == FragmentEvents(bufs, init) + [ev];
    FirstDeltaConcat(FragmentEvents(bufs, init), [ev], index);
    AddedIndices(bufs, init, index);
    if Mentions(init, index) {
      FragmentsName(bufs, init, index);
    }
  }

  lemma {:induction false} BodyNames(chunks: seq<Chunk>, orders: seq<seq<int>>, index: int)
    requires AllBody(chunks) && |orders| == |chunks| && Mentions(FragmentsIn(chunks), index)
    ensures Names(RunEvents(chunks, orders), index, FirstOf(FragmentsIn(chunks), index))
    decreases |chunks|
  {
    var n := |chunks| - 1;
    var (bufs, frags) := (RunBuffers(chunks[..n]), DeltaOf(chunks[n]).toolCalls);
    var (before, more) := (RunEvents(chunks[..n], orders[..n]), ChunkEvents(chunks[n], bufs, orders[n]));
    BodyMentions(chunks, orders, index);
    BodyMentions(chunks[..n], orders[..n], index);
    FirstDeltaConcat(before, more, index);
    FirstOfConcat(FragmentsIn(chunks[..n]), frags, index);
    if Mentions(FragmentsIn(chunks[..n]), index) {
      BodyNames(chunks[..n], orders[..n], index);
    } else {
      BodyBuffers(chunks[..n]);
      BuffersHoldCalls(FragmentsIn(chunks[..n]), index);
      FragmentsName(bufs, frags, index);
    }
  }

  /** Each fragment of a body is sent as one delta of its index: with the name and the id
      of its call if it begins it, and with the id alone if not. */
  lemma {:induction false} EveryFragmentIsSent(chunks: seq<Chunk>, frags: seq<Fragment>, i: nat)
    requires AllBody(chunks) && i < |frags|
    ensures var (sent, before) := (FragmentEvents(RunBuffers(chunks), frags), FragmentsIn(chunks) + frags[..i]);
      && |sent| == |frags|
      && sent[i] == if Mentions(before, frags[i].index)
                    then ToolCallDelta(frags[i].index, FirstOf(before, frags[i].index).id, "", frags[i].arguments)
                    else ToolCallDelta(frags[i].index, frags[i].id, frags[i].name, frags[i].arguments)
    decreases |frags|
  {
    var n := |frags| - 1;
    var (bufs, init) := (RunBuffers(chunks), frags[..n]);
    SentOnce(bufs, init);
    if i < n {
      EveryFragmentIsSent(chunks, init, i);
      assert init[..i] == frags[..i];
    } else {
      BodyBuffers(chunks);
      AddConcat(map[], FragmentsIn(chunks), init);
      BuffersHoldCalls(FragmentsIn(chunks) + init, frags[n].index);
    }
  }

  lemma {:induction false} SentOnce(bufs: Buffers, frags: seq<Fragment>)
    ensures |FragmentEvents(bufs, frags)| == |frags|
    decreases |frags|
  {
    if frags != [] {
      SentOnce(bufs, frags[..|frags| - 1]);
    }
  }

  /** A delta without tool calls: its reasoning, then its text, each if it has any; an
      empty text delta stands for one that only names a role. */
  lemma {:induction false} PlainDeltaIsSent(c: Chunk, bufs: Buffers, order: seq<int>)
    requires IsBody(c) && DeltaOf(c).toolCalls == []
    ensures var (es, thought, text) := (ChunkEvents(c, bufs, order), Piece(c, Thought), Piece(c, Content));
      && (thought != "" && text != "" ==> es == [ReasoningDelta(thought), TextDelta(text)])
      && (thought != "" && text == "" ==> es == [ReasoningDelta(thought)])
      && (thought == "" && text != "" ==> es == [TextDelta(text)])
      && (thought == "" && text == "" ==>
          (es == if DeltaOf(c).role != "" && DeltaOf(c).reasoning.None? then [TextDelta("")] else []))
  {
  }

  // ----- Joined -----

  /** The call that the client has been told of before the finish chunk. */
  function StreamedCall(chunks: seq<Chunk>, index: int): ToolCall
    requires chunks != [] && Mentions(FragmentsIn(Front(chunks)), index)
  {
    CallOf(FragmentsIn(Front(chunks)), index)
  }

  lemma {:induction false} BeforeDoneNames(chunks: seq<Chunk>, orders: seq<seq<int>>, index: int)
    requires Cuts(chunks) && |orders| == |chunks| && Walks(chunks, orders)
    requires Mentions(FragmentsIn(Front(chunks)), index)
    ensures Names(BeforeDone(chunks, orders), index, FirstOf(FragmentsIn(Front(chunks)), index))
  {
    var body := BodyEvents(chunks, orders);
    var flush := Flushed(RunBuffers(Front(chunks)), FlushOrder(chunks, orders));
    var last := [TextDone(Piece(chunks[|chunks| - 1], Content))];
    BodyNames(Front(chunks), orders[..|chunks| - 1], index);
    SawConcat(body, flush, index);
    SawConcat(body + flush, last, index);
    FirstDeltaConcat(body + flush, last, index);
    FirstDeltaConcat(body, flush, index);
  }

  /** The flush completes the call. */
  lemma {:induction false} BeforeDoneCompletes(chunks: seq<Chunk>, orders: seq<seq<int>>, index: int) returns (ev: ProviderEvent)
    requires Cuts(chunks) && |orders| == |chunks| && Walks(chunks, orders)
    requires Mentions(FragmentsIn(Front(chunks)), index)
    ensures ev in BeforeDone(chunks, orders)
    ensures ev == ToolCallDone(index, StreamedCall(chunks, index).id, StreamedCall(chunks, index).name,
                               StreamedCall(chunks, index).arguments,
                               Some(FunctionCall(0, ItemCompleted, StreamedCall(chunks, index))))
    ensures forall i | 0 <= i < |BeforeDone(chunks, orders)| && BeforeDone(chunks, orders)[i] == ev ::
      SawCall(BeforeDone(chunks, orders)[..i], index)
  {
    var (body, bufs, order) := (BodyEvents(chunks, orders), RunBuffers(Front(chunks)), FlushOrder(chunks, orders));
    BodyBuffers(Front(chunks));
    BuffersHoldCalls(FragmentsIn(Front(chunks)), index);
    EventsOfCut(chunks, orders);
    BodyTells(Front(chunks), orders[..|chunks| - 1], index);
    ev := CallDone(index, At(bufs, index));
    FlushCompletes(body, bufs, order, [TextDone(Piece(chunks[|chunks| - 1], Content))], index);
  }

  lemma {:induction false} FlushCompletes(
    body: seq<ProviderEvent>, bufs: Buffers, order: seq<int>, last: seq<ProviderEvent>, index: int)
    requires index in order && SawCall(body, index) && Midway(body)
    ensures var (ev, es) := (CallDone(index, At(bufs, index)), body + Flushed(bufs, order) + last);
      ev in es && forall i | 0 <= i < |es| && es[i] == ev :: SawCall(es[..i], index)
  {
    var (ev, es) := (CallDone(index, At(bufs, index)), body + Flushed(bufs, order) + last);
    var k :| 0 <= k < |order| && order[k] == index;
    assert Flushed(bufs, order)[k] == ev;
    assert es[|body| + k] == ev;
    CompletionsComeLater(body, Flushed(bufs, order) + last);
    assert es == body + (Flushed(bufs, order) + last);
    forall i | 0 <= i < |es| && es[i] == ev
      ensures SawCall(es[..i], index)
    {
      assert es[..i] == body + es[|body|..i];
      SawConcat(body, es[|body|..i], index);
    }
  }

  lemma {:induction false} CompletionsComeLater(body: seq<ProviderEvent>, later: seq<ProviderEvent>)
    requires Midway(body)
    ensures forall i | 0 <= i < |body + later| && (body + later)[i].ToolCallDone? :: i >= |body|
  {
    assert forall i | 0 <= i < |body| :: (body + later)[i] == body[i];
  }

  /** A call announced and done under one id. */
  ghost predicate HearsCall(log: seq<StreamEvent>, announced: ToolCall, done: ToolCall, i: nat, j: nat, id: ItemId) {
    && i < j < |log|
    && log[i].OutputItemAdded? && log[i].item == FunctionCall(id, ItemInProgress, announced)
    && log[j].OutputItemDone? && log[j].item == FunctionCall(id, ItemCompleted, done)
    && ArgumentsIn(log, id) == done.arguments
  }

  /** Of a completion, however cut, flushed and followed, each call that begins before the
      finish chunk is announced to the client with the id and the name of the whole call,
      gets its arguments delta by delta, and is done with the same id and name and all
      these arguments, all of it under one item id. */
  lemma {:induction false} EveryCallIsHeard(
    chunks: seq<Chunk>, orders: seq<seq<int>>, rest: seq<ProviderEvent>, cancelled: nat -> bool, includeUsage: bool, index: int)
    requires Cuts(chunks) && |orders| == |chunks| && Walks(chunks, orders)
    requires Mentions(FragmentsIn(Front(chunks)), index)
    requires forall i :: !cancelled(i)
    ensures Mentions(FragmentsIn(chunks), index)
    ensures var (whole, streamed) := (CallOf(FragmentsIn(chunks), index), CallOf(FragmentsIn(Front(chunks)), index));
      exists i, j, id :: HearsCall(LogOf(RunEvents(chunks, orders) + rest, cancelled, includeUsage),
                                   ToolCall(whole.id, whole.name, ""), ToolCall(whole.id, whole.name, streamed.arguments), i, j, id)
  {
    hide LogOf, RunEvents, Told, BeforeDone, StopAt, Walks, Proper, FragmentsIn, Mentions, FirstOf, ArgumentsIn, ArgumentsOf;
    hide SawCall, FirstDelta, CallItemOf, Front, Halts;
    var es := RunEvents(chunks, orders) + rest;
    var before := BeforeDone(chunks, orders);
    var log := LogOf(es, cancelled, includeUsage);
    SameFirst(chunks, index);
    StreamStops(chunks, orders, rest, cancelled);
    BeforeDoneNames(chunks, orders, index);
    CallAnnounced(before, index);
    var i := ToldIsWritten(es, cancelled, includeUsage, Announcement(before, index));
    var ev := BeforeDoneCompletes(chunks, orders, index);
    CallCompleted(before, ev);
    var j := ToldIsWritten(es, cancelled, includeUsage, Completion(before, ev));
    AnnouncedFirst(log, i, j, CallItemOf(before, index).itemID);
    ArgumentsHeard(chunks, orders, rest, cancelled, includeUsage, index);
    var (whole, streamed) := (CallOf(FragmentsIn(chunks), index), CallOf(FragmentsIn(Front(chunks)), index));
    assert streamed == ToolCall(whole.id, whole.name, streamed.arguments);
    assert HearsCall(log, ToolCall(whole.id, whole.name, ""), streamed, i, j, CallItemOf(before, index).itemID);
  }

  lemma {:induction false} SameFirst(chunks: seq<Chunk>, index: int)
    requires chunks != [] && Mentions(FragmentsIn(Front(chunks)), index)
    ensures Mentions(FragmentsIn(chunks), index)
    ensures CallOf(FragmentsIn(chunks), index).id == StreamedCall(chunks, index).id
    ensures CallOf(FragmentsIn(chunks), index).name == StreamedCall(chunks, index).name
  {
    MentionsConcat(FragmentsIn(Front(chunks)), FinishFragments(chunks), index);
    FirstOfConcat(FragmentsIn(Front(chunks)), FinishFragments(chunks), index);
  }

  lemma {:induction false} AnnouncedFirst(log: seq<StreamEvent>, i: nat, j: nat, id: ItemId)
    requires Proper(log) && i < |log| && j < |log|
    requires log[i].OutputItemAdded? && log[i].item.id == id && log[j].OutputItemDone? && log[j].item.id == id
    ensures i < j
  {
    ProperMeans(log, i);
    ProperMeans(log, j);
  }

  lemma {:induction false} ArgumentsHeard(
    chunks: seq<Chunk>, orders: seq<seq<int>>, rest: seq<ProviderEvent>, cancelled: nat -> bool, includeUsage: bool, index: int)
    requires Cuts(chunks) && |orders| == |chunks| && Walks(chunks, orders)
    requires Mentions(FragmentsIn(Front(chunks)), index)
    requires forall i :: !cancelled(i)
    ensures var before := BeforeDone(chunks, orders);
      && SawCall(before, index)
      && ArgumentsIn(LogOf(RunEvents(chunks, orders) + rest, cancelled, includeUsage), CallItemOf(before, index).itemID)
         == StreamedCall(chunks, index).arguments
  {
    hide After, ArgumentsIn, BeforeDone, RunEvents, StopAt, Told;
    var es := RunEvents(chunks, orders) + rest;
    var before := BeforeDone(chunks, orders);
    StreamStops(chunks, orders, rest, cancelled);
    BodyBuffers(Front(chunks));
    BuffersHoldCalls(FragmentsIn(Front(chunks)), index);
    DeltasAddUp(chunks, orders, index);
    AfterIsTold(before);
    ClosingHasNone(After(before), ExitOf(es, cancelled, StopAt(es, cancelled, 0)), includeUsage, CallItemOf(before, index).itemID);
  }

  lemma {:induction false} ClosingHasNone(r: Run, exit: Exit, includeUsage: bool, id: ItemId)
    ensures ArgumentsIn(r.log + Closing(r, exit, includeUsage), id) == ArgumentsIn(r.log, id)
  {
    hide ArgumentsIn;
    ArgumentsConcat(r.log, Closing(r, exit, includeUsage), id);
    NoneWithout(Closing(r, exit, includeUsage), id);
  }
}
