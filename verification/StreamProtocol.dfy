/** What every streamed response keeps, whatever the provider sends and however the loop
    ends (pkg/engine/engine.go, pkg/engine/events.go). */
module StreamProtocol {
  import opened Wrappers
  import opened ProviderEvents
  import opened StreamEvents
  import opened StreamRun
  import ResponseState
  import opened Api

  // ----- The protocol, event by event -----

  predicate Adds(e: StreamEvent, id: ItemId) {
    e.OutputItemAdded? && e.item.id == id
  }

  /** Has an item with this id been announced? */
  predicate Added(log: seq<StreamEvent>, id: ItemId) {
    log != [] && (Added(log[..|log| - 1], id) || Adds(log[|log| - 1], id))
  }

  /** Has an item with this id been announced at this output index? */
  predicate AddedWith(log: seq<StreamEvent>, id: ItemId, index: int) {
    log != [] &&
    (AddedWith(log[..|log| - 1], id, index) || (Adds(log[|log| - 1], id) && log[|log| - 1].outputIndex == index))
  }

  /** May e come next? It has the next number, the opening events are where they belong,
      nothing follows a terminal event, no item is announced twice, and an event about an
      item comes after its announcement, and with its index if it is an event of a tool
      call or of reasoning. */
  predicate Follows(log: seq<StreamEvent>, e: StreamEvent) {
    && e.number == |log|
    && (e.ResponseCreated? <==> |log| == 0)
    && (e.ResponseInProgress? <==> |log| == 1)
    && (log != [] ==> !log[|log| - 1].IsTerminal())
    && (e.OutputItemAdded? ==> !Added(log, e.item.id))
    && (e.Subject().Some? ==> Added(log, e.Subject().value))
    && (e.IsIndexed() ==> AddedWith(log, e.itemID, e.outputIndex))
  }

  predicate Proper(log: seq<StreamEvent>) {
    log == [] || (Proper(log[..|log| - 1]) && Follows(log[..|log| - 1], log[|log| - 1]))
  }

  /** The protocol has begun and is not over. */
  predicate Open(log: seq<StreamEvent>) {
    Proper(log) && |log| >= 2 && !log[|log| - 1].IsTerminal()
  }

  lemma Append(log: seq<StreamEvent>, e: StreamEvent)
    ensures Proper(log + [e]) <==> Proper(log) && Follows(log, e)
    ensures forall id: ItemId :: Added(log + [e], id) <==> Added(log, id) || Adds(e, id)
    ensures forall id: ItemId, index :: AddedWith(log + [e], id, index) <==>
      AddedWith(log, id, index) || (Adds(e, id) && e.outputIndex == index)
  {
    assert (log + [e])[..|log|] == log;
  }

  lemma {:induction false} AddedAt(log: seq<StreamEvent>, id: ItemId) returns (j: nat)
    requires Added(log, id)
    ensures j < |log| && Adds(log[j], id)
  {
    var n := |log| - 1;
    if Adds(log[n], id) {
      j := n;
    } else {
      j := AddedAt(log[..n], id);
    }
  }

  lemma {:induction false} AddedWithAt(log: seq<StreamEvent>, id: ItemId, index: int) returns (j: nat)
    requires AddedWith(log, id, index)
    ensures j < |log| && Adds(log[j], id) && log[j].outputIndex == index
  {
    var n := |log| - 1;
    if Adds(log[n], id) && log[n].outputIndex == index {
      j := n;
    } else {
      j := AddedWithAt(log[..n], id, index);
    }
  }

  lemma {:induction false} AddedIfAt(log: seq<StreamEvent>, id: ItemId, j: nat)
    requires j < |log| && Adds(log[j], id)
    ensures Added(log, id)
  {
    if j < |log| - 1 {
      AddedIfAt(log[..|log| - 1], id, j);
    }
  }

  lemma {:induction false} ProperPrefix(log: seq<StreamEvent>, n: nat)
    requires Proper(log) && n <= |log|
    ensures Proper(log[..n])
  {
    if n < |log| {
      ProperPrefix(log[..|log| - 1], n);
      assert log[..|log| - 1][..n] == log[..n];
    } else {
      assert log[..n] == log;
    }
  }

  /** A proper log, event by event: numbered without gaps, opened and closed once, and
      every event about an item comes after its only announcement. */
  lemma ProperMeans(log: seq<StreamEvent>, i: nat)
    requires Proper(log) && i < |log|
    ensures log[i].number == i
    ensures log[i].ResponseCreated? <==> i == 0
    ensures log[i].ResponseInProgress? <==> i == 1
    ensures log[i].IsTerminal() ==> i == |log| - 1
    ensures log[i].Subject().Some? ==> exists j: nat :: j < i && Adds(log[j], log[i].Subject().value)
    ensures log[i].IsIndexed() ==>
      exists j: nat :: j < i && Adds(log[j], log[i].itemID) && log[j].outputIndex == log[i].outputIndex
    ensures log[i].OutputItemAdded? ==> forall j: nat | j < |log| && Adds(log[j], log[i].item.id) :: j == i
  {
    ProperPrefix(log, i + 1);
    var before := log[..i];
    assert log[..i + 1][..i] == before;
    if log[i].Subject().Some? {
      var j := AddedAt(before, log[i].Subject().value);
      assert Adds(log[j], log[i].Subject().value);
    }
    if log[i].IsIndexed() {
      var j := AddedWithAt(before, log[i].itemID, log[i].outputIndex);
      assert Adds(log[j], log[i].itemID) && log[j].outputIndex == log[i].outputIndex;
    }
    if i < |log| - 1 {
      ProperPrefix(log, i + 2);
      assert log[..i + 2][..i + 1] == log[..i + 1];
    }
    if log[i].OutputItemAdded? {
      forall j: nat | j < |log| && Adds(log[j], log[i].item.id)
        ensures j == i
      {
        AddedTwice(log, j, i);
        AddedTwice(log, i, j);
      }
    }
  }

  lemma AddedTwice(log: seq<StreamEvent>, i: nat, j: nat)
    requires Proper(log) && i < |log| && j < |log| && log[i].OutputItemAdded? && Adds(log[j], log[i].item.id)
    ensures i <= j
  {
    if j < i {
      ProperPrefix(log, i + 1);
      assert log[..i + 1][..i] == log[..i];
      AddedIfAt(log[..i], log[i].item.id, j);
    }
  }

  // ----- The state and the log belong together -----

  predicate Known(log: seq<StreamEvent>, id: ItemId, index: int) {
    Added(log, id) && AddedWith(log, id, index)
  }

  ghost predicate Linked(a: Assembly, itemAdded: bool, log: seq<StreamEvent>) {
    && Open(log) && a.number == |log| && 1 <= a.itemID <= a.issued
    && (itemAdded <==> Added(log, a.itemID))
    && (a.reasoningStarted ==> Known(log, a.reasoningItemID, a.reasoningOutputIndex))
    && (forall k | k in a.toolItems :: Known(log, a.toolItems[k].itemID, a.toolItems[k].outputIndex))
    && (forall id: ItemId :: Added(log, id) ==> id <= a.issued)
  }

  lemma Plain(a: Assembly, itemAdded: bool, log: seq<StreamEvent>, e: StreamEvent)
    requires Linked(a, itemAdded, log) && e.number == a.number
    requires e.Subject().Some? && Added(log, e.Subject().value)
    requires e.IsIndexed() ==> AddedWith(log, e.itemID, e.outputIndex)
    ensures Linked(a.(number := a.number + 1), itemAdded, log + [e])
  {
    Append(log, e);
  }

  lemma NewReasoning(a: Assembly, itemAdded: bool, log: seq<StreamEvent>)
    requires Linked(a, itemAdded, log)
    ensures var s := OpenReasoning(a); Linked(s.after, itemAdded, log + s.events) && s.after.reasoningStarted
  {
    var s := OpenReasoning(a);
    if a.reasoningStarted {
      assert log + s.events == log;
    } else {
      Append(log, s.events[0]);
    }
  }

  lemma NewToolCall(a: Assembly, itemAdded: bool, log: seq<StreamEvent>, index: int, callID: string, name: string)
    requires Linked(a, itemAdded, log)
    ensures var s := OpenToolCall(a, index, callID, name);
      Linked(s.after, itemAdded, log + s.events) && index in s.after.toolItems
  {
    var s := OpenToolCall(a, index, callID, name);
    if index in a.toolItems {
      assert log + s.events == log;
    } else {
      Append(log, s.events[0]);
    }
  }

  lemma NewMessage(a: Assembly, log: seq<StreamEvent>)
    requires Linked(a, false, log)
    ensures Linked(a.(number := a.number + 2), true, log + LifecycleStart(a))
  {
    var (first, second) := (LifecycleStart(a)[0], LifecycleStart(a)[1]);
    Append(log, first);
    assert Linked(a.(number := a.number + 1), true, log + [first]);
    Plain(a.(number := a.number + 1), true, log + [first], second);
    assert log + LifecycleStart(a) == log + [first] + [second];
  }

  lemma ReasoningDoneLinked(a: Assembly, itemAdded: bool, log: seq<StreamEvent>)
    requires Linked(a, itemAdded, log)
    ensures var s := OnReasoningDone(a); Linked(s.after, itemAdded, log + s.events)
  {
    var s := OnReasoningDone(a);
    if s.events == [] {
      assert log + s.events == log;
    } else {
      Plain(a, itemAdded, log, s.events[0]);
      Append(log, s.events[0]);
      Plain(a.(number := a.number + 1), itemAdded, log + [s.events[0]], s.events[1]);
      assert log + s.events == log + [s.events[0]] + [s.events[1]];
    }
  }

  /** One more event after a step that keeps the link. */
  lemma ThenPlain(s: Step, itemAdded: bool, log: seq<StreamEvent>, e: StreamEvent)
    requires Linked(s.after, itemAdded, log + s.events) && e.number == s.after.number
    requires e.Subject().Some? && Added(log + s.events, e.Subject().value)
    requires e.IsIndexed() ==> AddedWith(log + s.events, e.itemID, e.outputIndex)
    ensures Linked(s.after.(number := s.after.number + 1), itemAdded, log + (s.events + [e]))
  {
    Plain(s.after, itemAdded, log + s.events, e);
    assert log + (s.events + [e]) == log + s.events + [e];
  }

  lemma TextDeltaLinked(a: Assembly, log: seq<StreamEvent>, delta: string)
    requires Linked(a, true, log)
    ensures var s := OnTextDelta(a, delta); Linked(s.after, true, log + s.events)
  {
    if delta == "" {
      assert log + [] == log;
    } else {
      ReasoningDoneLinked(a, true, log);
      var r := OnReasoningDone(a);
      ThenPlain(r, true, log, OutputTextDelta(r.after.number, delta, r.after.itemID, r.after.outputIndex));
    }
  }

  lemma ToolCallDeltaLinked(a: Assembly, itemAdded: bool, log: seq<StreamEvent>, index: int, callID: string, name: string, delta: string)
    requires Linked(a, itemAdded, log)
    ensures var s := OnToolCallDelta(a, index, callID, name, delta); Linked(s.after, itemAdded, log + s.events)
  {
    NewToolCall(a, itemAdded, log, index, callID, name);
    var r := OpenToolCall(a, index, callID, name);
    if delta != "" {
      var item := r.after.toolItems[index];
      ThenPlain(r, itemAdded, log, ArgumentsDelta(r.after.number, delta, item.itemID, item.outputIndex));
    }
  }

  lemma ReasoningDeltaLinked(a: Assembly, itemAdded: bool, log: seq<StreamEvent>, delta: string)
    requires Linked(a, itemAdded, log)
    ensures var s := OnReasoningDelta(a, delta); Linked(s.after, itemAdded, log + s.events)
  {
    if delta == "" {
      assert log + [] == log;
    } else {
      NewReasoning(a, itemAdded, log);
      var r := OpenReasoning(a);
      ThenPlain(r, itemAdded, log, ReasoningTextDelta(r.after.number, delta, r.after.reasoningItemID, r.after.reasoningOutputIndex));
    }
  }

  lemma ToolCallDoneLinked(a: Assembly, itemAdded: bool, log: seq<StreamEvent>, index: int, delta: string, item: Option<Item>)
    requires Linked(a, itemAdded, log)
    ensures var s := OnToolCallDone(a, index, delta, item); Linked(s.after, itemAdded, log + s.events)
  {
    if index !in a.toolItems {
      assert log + [] == log;
    } else {
      var known := a.toolItems[index];
      var first := ArgumentsDone(a.number, delta, known.itemID, known.outputIndex);
      Plain(a, itemAdded, log, first);
      if item.Some? {
        var r := Step(a.(number := a.number + 1), [first]);
        Append(log, first);
        ThenPlain(r, itemAdded, log, OutputItemDone(a.number + 1, WithID(item.value, known.itemID), known.outputIndex));
        assert [first] + [OutputItemDone(a.number + 1, WithID(item.value, known.itemID), known.outputIndex)]
            == OnToolCallDone(a, index, delta, item).events;
      }
    }
  }

  lemma TextDoneLinked(a: Assembly, log: seq<StreamEvent>, delta: string)
    requires Linked(a, true, log)
    ensures var s := OnTextDone(a, delta); Linked(s.after, true, log + s.events)
  {
    var s := OnTextDone(a, delta);
    if a.textStarted {
      Plain(a, true, log, s.events[0]);
    } else {
      assert log + s.events == log;
    }
  }

  lemma StepLinked(a: Assembly, itemAdded: bool, log: seq<StreamEvent>, ev: ProviderEvent)
    requires Linked(a, itemAdded, log) && (IsText(ev) ==> itemAdded)
    ensures var s := OnProviderEvent(a, ev); Linked(s.after, itemAdded, log + s.events)
  {
    match ev
    case ReasoningDelta(delta) => ReasoningDeltaLinked(a, itemAdded, log, delta);
    case ReasoningDone => ReasoningDoneLinked(a, itemAdded, log);
    case TextDelta(delta) => TextDeltaLinked(a, log, delta);
    case TextDone(delta) => TextDoneLinked(a, log, delta);
    case ToolCallDelta(index, callID, name, delta) => ToolCallDeltaLinked(a, itemAdded, log, index, callID, name, delta);
    case ToolCallDone(index, _, _, delta, item) => ToolCallDoneLinked(a, itemAdded, log, index, delta, item);
    case Done(_, _) => assert log + [] == log;
    case Failure(_) => assert log + [] == log;
  }

  lemma ConsumeLinked(r: Run, ev: ProviderEvent)
    requires Linked(r.a, r.itemAdded, r.log)
    ensures var s := Consume(r, ev); Linked(s.a, s.itemAdded, s.log)
  {
    if IsText(ev) && !r.itemAdded {
      NewMessage(r.a, r.log);
    }
    var b := if IsText(ev) then StartText(r) else r;
    StepLinked(b.a, b.itemAdded, b.log, ev);
  }

  lemma {:induction false} NothingAdded(log: seq<StreamEvent>, id: ItemId)
    requires forall i | 0 <= i < |log| :: !log[i].OutputItemAdded?
    ensures !Added(log, id)
  {
    if log != [] {
      NothingAdded(log[..|log| - 1], id);
    }
  }

  lemma {:induction false} OpeningProper(first: StreamEvent, second: StreamEvent)
    requires first.ResponseCreated? && first.number == 0
    requires second.ResponseInProgress? && second.number == 1
    ensures Open([first, second])
  {
    Append([], first);
    Append([first], second);
    assert [] + [first] == [first] && [first] + [second] == [first, second];
  }

  lemma {:induction false} StartLinked()
    ensures Linked(START.a, START.itemAdded, START.log)
  {
    OpeningProper(START.log[0], START.log[1]);
    assert START.log == [START.log[0], START.log[1]];
    forall id: ItemId
      ensures !Added(START.log, id)
    {
      NothingAdded(START.log, id);
    }
  }

  lemma {:induction false} AfterLinked(es: seq<ProviderEvent>)
    ensures var r := After(es); Linked(r.a, r.itemAdded, r.log)
  {
    if es == [] {
      StartLinked();
    } else {
      AfterLinked(es[..|es| - 1]);
      ConsumeLinked(After(es[..|es| - 1]), es[|es| - 1]);
    }
  }
}
