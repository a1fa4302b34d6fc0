/** A streamed response without any state: each event that is written, given by what the
    provider has sent so far (pkg/engine/events.go, pkg/engine/engine.go). */
module StreamReference {
  import opened Wrappers
  import opened ProviderEvents
  import opened StreamEvents
  import opened StreamRun
  import opened StreamProtocol
  import opened StreamOutput
  import opened StreamArguments
  import opened Sequences
  import ResponseState
  import opened Api

  // ----- What has happened so far -----

  predicate SawDelta(es: seq<ProviderEvent>) {
    es != [] && (SawDelta(es[..|es| - 1]) || es[|es| - 1].TextDelta?)
  }

  /** Reasoning ends when the provider says so, or when text follows it. */
  predicate ClosesReasoning(ev: ProviderEvent) {
    ev.ReasoningDone? || (ev.TextDelta? && ev.delta != "")
  }

  predicate ReasoningClosed(es: seq<ProviderEvent>) {
    && es != []
    && var init := es[..|es| - 1];
       ReasoningClosed(init) || (ReasoningOf(init) != "" && ClosesReasoning(es[|es| - 1]))
  }

  predicate BeginsCall(init: seq<ProviderEvent>, ev: ProviderEvent) {
    ev.ToolCallDelta? && !SawCall(init, ev.index)
  }

  predicate BeginsReasoning(init: seq<ProviderEvent>, ev: ProviderEvent) {
    ev.ReasoningDelta? && ev.delta != "" && ReasoningOf(init) == ""
  }

  function CallsBegun(es: seq<ProviderEvent>): nat {
    if es == [] then 0
    else CallsBegun(es[..|es| - 1]) + (if BeginsCall(es[..|es| - 1], es[|es| - 1]) then 1 else 0)
  }

  /** Item 1 is the message; the others are numbered as they begin. */
  function ItemsBegun(es: seq<ProviderEvent>): nat {
    1 + CallsBegun(es) + (if ReasoningOf(es) != "" then 1 else 0)
  }

  /** The output index moves on with each call that begins and when reasoning ends. */
  function IndexAfter(es: seq<ProviderEvent>): nat {
    CallsBegun(es) + (if ReasoningClosed(es) then 1 else 0)
  }

  /** An item: its id and output index. */
  function CallItemOf(es: seq<ProviderEvent>, index: int): ToolCallItem
    requires SawCall(es, index)
  {
    var init := es[..|es| - 1];
    if SawCall(init, index) then CallItemOf(init, index) else ToolCallItem(ItemsBegun(init) + 1, IndexAfter(init) + 1)
  }

  function ReasoningItemOf(es: seq<ProviderEvent>): ToolCallItem
    requires ReasoningOf(es) != ""
  {
    var init := es[..|es| - 1];
    if ReasoningOf(init) != "" then ReasoningItemOf(init) else ToolCallItem(ItemsBegun(init) + 1, IndexAfter(init))
  }

  // ----- The events, but for their numbers -----

  const MESSAGE_ID: ItemId := 1

  function MessageBegins(init: seq<ProviderEvent>): seq<StreamEvent> {
    if SawText(init) then []
    else
      [OutputItemAdded(0, Message(MESSAGE_ID, ItemInProgress, Assistant, [], []), IndexAfter(init)),
       ContentPartAdded(0, "", MESSAGE_ID, IndexAfter(init))]
  }

  function ReasoningBegins(init: seq<ProviderEvent>): seq<StreamEvent> {
    if ReasoningOf(init) != "" then []
    else [OutputItemAdded(0, Reasoning(ItemsBegun(init) + 1, ItemInProgress, ""), IndexAfter(init))]
  }

  function ReasoningEnds(init: seq<ProviderEvent>): seq<StreamEvent> {
    if ReasoningOf(init) == "" || ReasoningClosed(init) then []
    else
      var (id, index) := (ReasoningItemOf(init).itemID, ReasoningItemOf(init).outputIndex);
      [ReasoningTextDone(0, id, index), OutputItemDone(0, Reasoning(id, ItemCompleted, ReasoningOf(init)), index)]
  }

  function CallBegins(init: seq<ProviderEvent>, index: int, callID: string, name: string): seq<StreamEvent> {
    if SawCall(init, index) then []
    else
      [OutputItemAdded(0, FunctionCall(ItemsBegun(init) + 1, ItemInProgress, ToolCall(callID, name, "")), IndexAfter(init) + 1)]
  }

  /** What is written for one more provider event. */
  function News(init: seq<ProviderEvent>, ev: ProviderEvent): seq<StreamEvent> {
    var es := init + [ev];
    match ev
    case TextDelta("") => MessageBegins(init)
    case TextDelta(delta) =>
      MessageBegins(init) + (ReasoningEnds(init) + [OutputTextDelta(0, delta, MESSAGE_ID, IndexAfter(es))])
    case TextDone(delta) =>
      MessageBegins(init) + (if SawDelta(init) then [OutputTextDone(0, delta, MESSAGE_ID, IndexAfter(init))] else [])
    case ReasoningDelta("") => []
    case ReasoningDelta(delta) =>
      HasReasoning(es);
      ReasoningBegins(init) + [ReasoningTextDelta(0, delta, ReasoningItemOf(es).itemID, ReasoningItemOf(es).outputIndex)]
    case ReasoningDone => ReasoningEnds(init)
    case ToolCallDelta(index, callID, name, delta) =>
      HasCall(es, index);
      CallBegins(init, index, callID, name)
      + (if delta == "" then []
         else [ArgumentsDelta(0, delta, CallItemOf(es, index).itemID, CallItemOf(es, index).outputIndex)])
    case ToolCallDone(index, _, _, delta, item) =>
      if !SawCall(init, index) then []
      else
        var known := CallItemOf(init, index);
        [ArgumentsDone(0, delta, known.itemID, known.outputIndex)]
        + (if item.None? then [] else [OutputItemDone(0, item.value.(id := known.itemID), known.outputIndex)])
    case Done(_, _) => []
    case Failure(_) => []
  }

  lemma {:induction false} HasReasoning(es: seq<ProviderEvent>)
    requires es != [] && es[|es| - 1].ReasoningDelta? && es[|es| - 1].delta != ""
    ensures ReasoningOf(es) != ""
  {
  }

  lemma {:induction false} HasCall(es: seq<ProviderEvent>, index: int)
    requires es != [] && es[|es| - 1].ToolCallDelta? && es[|es| - 1].index == index
    ensures SawCall(es, index)
  {
  }

  /** All that is written for these provider events. */
  function Told(es: seq<ProviderEvent>): seq<StreamEvent> {
    if es == [] then
      [ResponseCreated(0, Response(ResponseState.InProgress, [], None, None, None)),
       ResponseInProgress(0, Response(ResponseState.InProgress, [], None, None, None))]
    else Told(es[..|es| - 1]) + News(es[..|es| - 1], es[|es| - 1])
  }

  function Unnumbered(log: seq<StreamEvent>): seq<StreamEvent> {
    seq(|log|, i requires 0 <= i < |log| => log[i].(number := 0))
  }

  // ----- The state is the past -----

  /** The fields of the state, from the provider events alone. */
  ghost predicate Remembers(a: Assembly, itemAdded: bool, es: seq<ProviderEvent>) {
    && a.itemID == MESSAGE_ID && a.outputIndex == IndexAfter(es) && a.issued == ItemsBegun(es)
    && (itemAdded <==> SawText(es)) && (a.textStarted <==> SawDelta(es))
    && RemembersReasoning(a, es) && RemembersCalls(a, es)
  }

  predicate RemembersReasoning(a: Assembly, es: seq<ProviderEvent>) {
    && a.accumulatedReasoning == ReasoningOf(es)
    && (a.reasoningStarted <==> ReasoningOf(es) != "")
    && (a.reasoningDone <==> ReasoningClosed(es))
    && (ReasoningOf(es) != "" ==> ToolCallItem(a.reasoningItemID, a.reasoningOutputIndex) == ReasoningItemOf(es))
  }

  ghost predicate RemembersCalls(a: Assembly, es: seq<ProviderEvent>) {
    forall k :: (k in a.toolItems <==> SawCall(es, k)) && (SawCall(es, k) ==> a.toolItems[k] == CallItemOf(es, k))
  }

  lemma {:induction false} UnnumberedConcat(a: seq<StreamEvent>, b: seq<StreamEvent>)
    ensures Unnumbered(a + b) == Unnumbered(a) + Unnumbered(b)
  {
  }

  lemma {:induction false} OneMoreEvent(init: seq<ProviderEvent>, ev: ProviderEvent)
    ensures var es := init + [ev];
      && es[..|es| - 1] == init && es[|es| - 1] == ev
      && ReasoningOf(es) == ReasoningOf(init) + (if ev.ReasoningDelta? then ev.delta else "")
      && (SawText(es) <==> SawText(init) || IsText(ev))
      && (SawDelta(es) <==> SawDelta(init) || ev.TextDelta?)
      && (ReasoningClosed(es) <==> ReasoningClosed(init) || (ReasoningOf(init) != "" && ClosesReasoning(ev)))
      && CallsBegun(es) == CallsBegun(init) + (if BeginsCall(init, ev) then 1 else 0)
  {
    assert (init + [ev])[..|init|] == init;
  }

  lemma {:induction false} ClosedMeansReasoned(es: seq<ProviderEvent>)
    ensures ReasoningClosed(es) ==> ReasoningOf(es) != ""
  {
    if es != [] {
      ClosedMeansReasoned(es[..|es| - 1]);
    }
  }

  lemma {:induction false} OneMoreReasoning(init: seq<ProviderEvent>, ev: ProviderEvent)
    requires ReasoningOf(init + [ev]) != ""
    ensures ReasoningItemOf(init + [ev]) ==
      if ReasoningOf(init) != "" then ReasoningItemOf(init) else ToolCallItem(ItemsBegun(init) + 1, IndexAfter(init))
  {
    assert (init + [ev])[..|init|] == init;
  }

  lemma {:induction false} OneMoreCall(init: seq<ProviderEvent>, ev: ProviderEvent, index: int)
    ensures SawCall(init + [ev], index) <==> SawCall(init, index) || (ev.ToolCallDelta? && ev.index == index)
    ensures SawCall(init + [ev], index) ==>
      (CallItemOf(init + [ev], index)
       == if SawCall(init, index) then CallItemOf(init, index) else ToolCallItem(ItemsBegun(init) + 1, IndexAfter(init) + 1))
  {
    assert (init + [ev])[..|init|] == init;
  }

  /** One provider event, with the message begun if it had to be. */
  function Stepped(a: Assembly, itemAdded: bool, ev: ProviderEvent): Step {
    if IsText(ev) && !itemAdded then
      var s := OnProviderEvent(a.(number := a.number + 2), ev);
      s.(events := LifecycleStart(a) + s.events)
    else OnProviderEvent(a, ev)
  }

  lemma {:induction false} StepRemembersReasoning(a: Assembly, itemAdded: bool, init: seq<ProviderEvent>, ev: ProviderEvent)
    requires Remembers(a, itemAdded, init)
    ensures RemembersReasoning(Stepped(a, itemAdded, ev).after, init + [ev])
  {
    hide ReasoningOf, ReasoningClosed, ReasoningItemOf, Stepped, ItemsBegun, IndexAfter;
    ReasoningAfterStep(a, itemAdded, ev);
    OneMoreEvent(init, ev);
    ClosedMeansReasoned(init);
    if ReasoningOf(init + [ev]) != "" {
      OneMoreReasoning(init, ev);
    }
  }

  /** The state in which the event itself is mapped. */
  function Opened(a: Assembly, itemAdded: bool, ev: ProviderEvent): Assembly {
    if IsText(ev) && !itemAdded then a.(number := a.number + 2) else a
  }

  lemma {:induction false} ReasoningAfterStep(a: Assembly, itemAdded: bool, ev: ProviderEvent)
    ensures ReasoningMoves(a, Stepped(a, itemAdded, ev).after, ev)
  {
    hide OnProviderEvent;
    ReasoningAfterEvent(Opened(a, itemAdded, ev), ev);
  }

  predicate ReasoningMoves(a: Assembly, b: Assembly, ev: ProviderEvent) {
    var begins := ev.ReasoningDelta? && ev.delta != "";
    && b.accumulatedReasoning == a.accumulatedReasoning + (if ev.ReasoningDelta? then ev.delta else "")
    && (b.reasoningStarted <==> a.reasoningStarted || begins)
    && (b.reasoningDone <==> a.reasoningDone || (a.reasoningStarted && ClosesReasoning(ev)))
    && b.reasoningItemID == (if begins && !a.reasoningStarted then a.issued + 1 else a.reasoningItemID)
    && b.reasoningOutputIndex == (if begins && !a.reasoningStarted then a.outputIndex else a.reasoningOutputIndex)
  }

  lemma {:induction false} ReasoningAfterEvent(a: Assembly, ev: ProviderEvent)
    ensures ReasoningMoves(a, OnProviderEvent(a, ev).after, ev)
  {
  }

  lemma {:induction false} CallsAfterStep(a: Assembly, itemAdded: bool, ev: ProviderEvent)
    ensures Stepped(a, itemAdded, ev).after.toolItems
         == if ev.ToolCallDelta? && ev.index !in a.toolItems
            then a.toolItems[ev.index := ToolCallItem(a.issued + 1, a.outputIndex + 1)]
            else a.toolItems
  {
    if ev.ToolCallDelta? {
      DeltaItems(a, ev.index, ev.callID, ev.name, ev.delta);
    } else {
      OnlyDeltasHaveArguments(if IsText(ev) && !itemAdded then a.(number := a.number + 2) else a, ev);
    }
  }

  lemma {:induction false} StepRemembersCalls(a: Assembly, itemAdded: bool, init: seq<ProviderEvent>, ev: ProviderEvent)
    requires Remembers(a, itemAdded, init)
    ensures RemembersCalls(Stepped(a, itemAdded, ev).after, init + [ev])
  {
    hide Stepped, SawCall, CallItemOf;
    CallsAfterStep(a, itemAdded, ev);
    forall k
      ensures var items := Stepped(a, itemAdded, ev).after.toolItems;
        (k in items <==> SawCall(init + [ev], k)) && (SawCall(init + [ev], k) ==> items[k] == CallItemOf(init + [ev], k))
    {
      OneMoreCall(init, ev, k);
    }
  }

  predicate CountersMove(a: Assembly, b: Assembly, ev: ProviderEvent) {
    var begins := if ev.ToolCallDelta? && ev.index !in a.toolItems then 1 else 0;
    && b.itemID == a.itemID && (b.textStarted <==> a.textStarted || ev.TextDelta?)
    && b.issued == a.issued + begins + (if ev.ReasoningDelta? && ev.delta != "" && !a.reasoningStarted then 1 else 0)
    && b.outputIndex == a.outputIndex + begins + (if a.reasoningStarted && !a.reasoningDone && ClosesReasoning(ev) then 1 else 0)
  }

  lemma {:induction false} CountersAfterEvent(a: Assembly, ev: ProviderEvent)
    ensures CountersMove(a, OnProviderEvent(a, ev).after, ev)
  {
  }

  lemma {:induction false} CountersAfterStep(a: Assembly, itemAdded: bool, ev: ProviderEvent)
    ensures CountersMove(a, Stepped(a, itemAdded, ev).after, ev)
  {
    hide OnProviderEvent;
    CountersAfterEvent(Opened(a, itemAdded, ev), ev);
  }

  lemma {:induction false} StepRemembers(a: Assembly, itemAdded: bool, init: seq<ProviderEvent>, ev: ProviderEvent)
    requires Remembers(a, itemAdded, init)
    ensures Remembers(Stepped(a, itemAdded, ev).after, itemAdded || IsText(ev), init + [ev])
  {
    hide Stepped, ReasoningOf, ReasoningClosed, SawText, SawDelta, CallsBegun, SawCall;
    StepRemembersReasoning(a, itemAdded, init, ev);
    StepRemembersCalls(a, itemAdded, init, ev);
    CountersAfterStep(a, itemAdded, ev);
    OneMoreEvent(init, ev);
    ClosedMeansReasoned(init);
  }

  lemma {:induction false} ReasoningDoneTells(a: Assembly, itemAdded: bool, es: seq<ProviderEvent>)
    requires Remembers(a, itemAdded, es)
    ensures Unnumbered(OnReasoningDone(a).events) == ReasoningEnds(es)
    ensures OnReasoningDone(a).after.outputIndex == IndexAfter(es) + |ReasoningEnds(es)| / 2
    ensures OnReasoningDone(a).after.itemID == MESSAGE_ID
  {
    ClosedMeansReasoned(es);
  }

  lemma {:induction false} MessageTells(a: Assembly, itemAdded: bool, es: seq<ProviderEvent>)
    requires Remembers(a, itemAdded, es)
    ensures Unnumbered(if itemAdded then [] else LifecycleStart(a)) == MessageBegins(es)
  {
  }

  lemma {:induction false} UnnumberedOne(e: StreamEvent)
    ensures Unnumbered([e]) == [e.(number := 0)]
  {
  }

  lemma {:induction false} TextDeltaTells(a: Assembly, itemAdded: bool, init: seq<ProviderEvent>, delta: string)
    requires Remembers(a, itemAdded, init)
    ensures delta == "" ==> OnTextDelta(a, delta).events == []
    ensures delta != "" ==>
      (Unnumbered(OnTextDelta(a, delta).events)
       == ReasoningEnds(init) + [OutputTextDelta(0, delta, MESSAGE_ID, IndexAfter(init + [TextDelta(delta)]))])
  {
    if delta != "" {
      OneMoreEvent(init, TextDelta(delta));
      ClosedMeansReasoned(init);
      ReasoningDoneTells(a, itemAdded, init);
      var r := OnReasoningDone(a);
      var e := OutputTextDelta(r.after.number, delta, r.after.itemID, r.after.outputIndex);
      UnnumberedConcat(r.events, [e]);
      UnnumberedOne(e);
    }
  }

  lemma {:induction false} ReasoningBeginsTells(a: Assembly, itemAdded: bool, init: seq<ProviderEvent>)
    requires Remembers(a, itemAdded, init)
    ensures var s := OpenReasoning(a);
      && Unnumbered(s.events) == ReasoningBegins(init)
      && ToolCallItem(s.after.reasoningItemID, s.after.reasoningOutputIndex)
         == if ReasoningOf(init) != "" then ReasoningItemOf(init) else ToolCallItem(ItemsBegun(init) + 1, IndexAfter(init))
  {
  }

  lemma {:induction false} ReasoningDeltaTells(a: Assembly, itemAdded: bool, init: seq<ProviderEvent>, delta: string)
    requires Remembers(a, itemAdded, init)
    ensures Unnumbered(OnReasoningDelta(a, delta).events) == News(init, ReasoningDelta(delta))
  {
    if delta != "" {
      OneMoreEvent(init, ReasoningDelta(delta));
      OneMoreReasoning(init, ReasoningDelta(delta));
      var r := OpenReasoning(a);
      ReasoningBeginsTells(a, itemAdded, init);
      var e := ReasoningTextDelta(r.after.number, delta, r.after.reasoningItemID, r.after.reasoningOutputIndex);
      UnnumberedConcat(r.events, [e]);
      UnnumberedOne(e);
    }
  }

  lemma {:induction false} CallDeltaTells(a: Assembly, itemAdded: bool, init: seq<ProviderEvent>,
                                          index: int, callID: string, name: string, delta: string)
    requires Remembers(a, itemAdded, init)
    ensures Unnumbered(OnToolCallDelta(a, index, callID, name, delta).events)
         == News(init, ToolCallDelta(index, callID, name, delta))
  {
    OneMoreCall(init, ToolCallDelta(index, callID, name, delta), index);
    CallBeginsTells(a, itemAdded, init, index, callID, name);
    var r := OpenToolCall(a, index, callID, name);
    if delta == "" {
      assert CallBegins(init, index, callID, name) + [] == CallBegins(init, index, callID, name);
    } else {
      var item := r.after.toolItems[index];
      var e := ArgumentsDelta(r.after.number, delta, item.itemID, item.outputIndex);
      UnnumberedConcat(r.events, [e]);
      UnnumberedOne(e);
    }
  }

  lemma {:induction false} CallBeginsTells(a: Assembly, itemAdded: bool, init: seq<ProviderEvent>, index: int, callID: string, name: string)
    requires Remembers(a, itemAdded, init)
    ensures var s := OpenToolCall(a, index, callID, name);
      && Unnumbered(s.events) == CallBegins(init, index, callID, name)
      && index in s.after.toolItems
      && s.after.toolItems[index]
         == if SawCall(init, index) then CallItemOf(init, index) else ToolCallItem(ItemsBegun(init) + 1, IndexAfter(init) + 1)
  {
  }

  lemma {:induction false} CallDoneTells(a: Assembly, itemAdded: bool, init: seq<ProviderEvent>,
                                         index: int, callID: string, name: string, delta: string, item: Option<Item>)
    requires Remembers(a, itemAdded, init)
    ensures Unnumbered(OnToolCallDone(a, index, delta, item).events)
         == News(init, ToolCallDone(index, callID, name, delta, item))
  {
  }

  /** The number and the beginning of the message make no difference to the rest. */
  lemma {:induction false} TextStepSplits(a: Assembly, itemAdded: bool, init: seq<ProviderEvent>, ev: ProviderEvent) returns (b: Assembly)
    requires Remembers(a, itemAdded, init) && IsText(ev)
    ensures Remembers(b, itemAdded, init)
    ensures Stepped(a, itemAdded, ev).events == (if itemAdded then [] else LifecycleStart(a)) + OnProviderEvent(b, ev).events
  {
    b := if itemAdded then a else a.(number := a.number + 2);
    if itemAdded {
      assert [] + OnProviderEvent(b, ev).events == OnProviderEvent(b, ev).events;
    }
  }

  lemma {:induction false} TextStepTells(a: Assembly, itemAdded: bool, init: seq<ProviderEvent>, ev: ProviderEvent)
    requires Remembers(a, itemAdded, init) && IsText(ev)
    ensures Unnumbered(Stepped(a, itemAdded, ev).events) == News(init, ev)
  {
    hide Stepped, LifecycleStart;
    var b := TextStepSplits(a, itemAdded, init, ev);
    var opening := if itemAdded then [] else LifecycleStart(a);
    UnnumberedConcat(opening, OnProviderEvent(b, ev).events);
    MessageTells(a, itemAdded, init);
    if ev.TextDelta? {
      TextDeltaTells(b, itemAdded, init, ev.delta);
    } else {
      assert Unnumbered(OnTextDone(b, ev.delta).events)
          == if SawDelta(init) then [OutputTextDone(0, ev.delta, MESSAGE_ID, IndexAfter(init))] else [];
    }
  }

  lemma {:induction false} StepTells(a: Assembly, itemAdded: bool, init: seq<ProviderEvent>, ev: ProviderEvent)
    requires Remembers(a, itemAdded, init)
    ensures Unnumbered(Stepped(a, itemAdded, ev).events) == News(init, ev)
  {
    match ev
    case TextDelta(_) => TextStepTells(a, itemAdded, init, ev);
    case TextDone(_) => TextStepTells(a, itemAdded, init, ev);
    case ReasoningDelta(delta) => ReasoningDeltaTells(a, itemAdded, init, delta);
    case ReasoningDone => ReasoningDoneTells(a, itemAdded, init);
    case ToolCallDelta(index, callID, name, delta) => CallDeltaTells(a, itemAdded, init, index, callID, name, delta);
    case ToolCallDone(index, callID, name, delta, item) => CallDoneTells(a, itemAdded, init, index, callID, name, delta, item);
    case Done(_, _) =>
    case Failure(_) =>
  }

  /** The loop writes what the reference tells, and its variables hold the past. */
  lemma {:induction false} AfterIsTold(es: seq<ProviderEvent>)
    ensures Remembers(After(es).a, After(es).itemAdded, es)
    ensures Unnumbered(After(es).log) == Told(es)
  {
    if es != [] {
      var (init, ev) := (es[..|es| - 1], es[|es| - 1]);
      var r := After(init);
      AfterIsTold(init);
      AfterOneMore(es);
      StepRemembers(r.a, r.itemAdded, init, ev);
      StepTells(r.a, r.itemAdded, init, ev);
      UnnumberedConcat(r.log, Stepped(r.a, r.itemAdded, ev).events);
      ConsumeIsStep(r, ev);
    }
  }

  lemma {:induction false} ConsumeIsStep(r: Run, ev: ProviderEvent)
    ensures var (s, b) := (Stepped(r.a, r.itemAdded, ev), Consume(r, ev));
      b.a == s.after && b.log == r.log + s.events && b.itemAdded == (r.itemAdded || IsText(ev))
  {
    if IsText(ev) && !r.itemAdded {
      Assoc(r.log, LifecycleStart(r.a), OnProviderEvent(StartText(r).a, ev).events);
    }
  }

  // ----- The whole response -----

  /** How the message ends, when the loop was finished with a message begun. */
  function MessageEnds(es: seq<ProviderEvent>, status: ItemStatus): seq<StreamEvent> {
    if !SawText(es) then []
    else
      [ContentPartDone(0, TextOf(es), MESSAGE_ID, 0),
       OutputItemDone(0, Message(MESSAGE_ID, status, Assistant, [], [TextOf(es)]), 0)]
  }

  /** Every stream is numbered from 0 and tells, event by event, what the reference says;
      only a stream that was finished ends its message, and the last event is as it must be. */
  lemma {:induction false} EveryStreamIsTold(es: seq<ProviderEvent>, cancelled: nat -> bool, includeUsage: bool)
    ensures var n := StopAt(es, cancelled, 0); var log := LogOf(es, cancelled, includeUsage); var last := log[|log| - 1];
      && (forall i | 0 <= i < |log| :: log[i].number == i)
      && EndsAs(last, es, cancelled, includeUsage, n)
      && Unnumbered(log[..|log| - 1])
         == (Told(es[..n])
             + (if !cancelled(n) && (n < |es| ==> es[n].Done?)
                then MessageEnds(es[..n], if last.ResponseIncomplete? then ItemIncomplete else ItemCompleted) else []))
  {
    var n := StopAt(es, cancelled, 0);
    var (r, exit) := (After(es[..n]), ExitOf(es, cancelled, n));
    EveryStreamIsProper(es, cancelled, includeUsage);
    NumberedInOrder(LogOf(es, cancelled, includeUsage));
    AfterIsTold(es[..n]);
    AfterFaithful(es[..n]);
    PartsTell(r, es[..n], exit);
    LogSplits(r, exit, includeUsage);
  }

  lemma {:induction false} NumberedInOrder(log: seq<StreamEvent>)
    requires Proper(log)
    ensures forall i | 0 <= i < |log| :: log[i].number == i
  {
    forall i | 0 <= i < |log|
      ensures log[i].number == i
    {
      ProperMeans(log, i);
    }
  }

  lemma {:induction false} LogSplits(r: Run, exit: Exit, includeUsage: bool)
    ensures var log := r.log + Closing(r, exit, includeUsage);
      && log != [] && Unnumbered(log[..|log| - 1]) == Unnumbered(r.log) + Unnumbered(PartsOf(r, exit))
      && (exit.Finished? ==> (log[|log| - 1].ResponseIncomplete? <==> exit.status.Incomplete?))
  {
    var log := r.log + Closing(r, exit, includeUsage);
    var last := ClosingShape(r, exit, includeUsage);
    ClosingEnds(r, exit, includeUsage);
    assert log == r.log + PartsOf(r, exit) + [last];
    assert log[..|log| - 1] == r.log + PartsOf(r, exit);
    UnnumberedConcat(r.log, PartsOf(r, exit));
  }

  lemma {:induction false} PartsTell(r: Run, es: seq<ProviderEvent>, exit: Exit)
    requires Remembers(r.a, r.itemAdded, es) && TextFaithful(r, es)
    ensures Unnumbered(PartsOf(r, exit))
         == if exit.Finished? then MessageEnds(es, if exit.status.Incomplete? then ItemIncomplete else ItemCompleted) else []
  {
  }

  // ----- Where the message is -----

  predicate AboutMessage(e: StreamEvent) {
    (e.OutputItemAdded? && e.item.Message?) || e.ContentPartAdded? || e.OutputTextDelta? || e.OutputTextDone?
  }

  predicate AtZero(log: seq<StreamEvent>) {
    forall i | 0 <= i < |log| && AboutMessage(log[i]) :: log[i].outputIndex == 0
  }

  /** Something is written about the message for this event. */
  predicate WritesText(init: seq<ProviderEvent>, ev: ProviderEvent) {
    (IsText(ev) && !SawText(init)) || (ev.TextDelta? && ev.delta != "") || (ev.TextDone? && SawDelta(init))
  }

  /** No text comes after a call has begun, or after reasoning has ended. */
  predicate TextFirst(es: seq<ProviderEvent>) {
    es == [] ||
      (TextFirst(es[..|es| - 1]) && (WritesText(es[..|es| - 1], es[|es| - 1]) ==> CallsBegun(es) == 0 && !ReasoningClosed(es)))
  }

  lemma {:induction false} AtZeroConcat(a: seq<StreamEvent>, b: seq<StreamEvent>)
    ensures AtZero(a + b) <==> AtZero(a) && AtZero(b)
  {
    if AtZero(a + b) {
      assert forall i | 0 <= i < |a| :: (a + b)[i] == a[i];
      assert forall i | 0 <= i < |b| :: (a + b)[|a| + i] == b[i];
    }
  }

  lemma {:induction false} NewsAtZero(init: seq<ProviderEvent>, ev: ProviderEvent)
    ensures AtZero(News(init, ev)) <==> (WritesText(init, ev) ==> IndexAfter(init + [ev]) == 0)
  {
    if ev.TextDelta? {
      TextDeltaAtZero(init, ev.delta);
    } else if ev.TextDone? {
      TextDoneAtZero(init, ev.delta);
    } else {
      OthersAtZero(init, ev);
    }
  }

  lemma {:induction false} OthersAtZero(init: seq<ProviderEvent>, ev: ProviderEvent)
    requires !IsText(ev)
    ensures AtZero(News(init, ev)) && !WritesText(init, ev)
  {
  }

  lemma {:induction false} TextDoneAtZero(init: seq<ProviderEvent>, delta: string)
    ensures AtZero(News(init, TextDone(delta))) <==> (WritesText(init, TextDone(delta)) ==> IndexAfter(init + [TextDone(delta)]) == 0)
  {
    hide AtZero, SawText, SawDelta, CallsBegun, ReasoningClosed;
    OneMoreEvent(init, TextDone(delta));
    BeginningAtZero(init);
    if SawDelta(init) {
      var e := OutputTextDone(0, delta, MESSAGE_ID, IndexAfter(init));
      AtZeroConcat(MessageBegins(init), [e]);
      OneAtZero(e);
    } else {
      assert MessageBegins(init) + [] == MessageBegins(init);
    }
  }

  lemma {:induction false} TextDeltaAtZero(init: seq<ProviderEvent>, delta: string)
    ensures AtZero(News(init, TextDelta(delta))) <==> (WritesText(init, TextDelta(delta)) ==> IndexAfter(init + [TextDelta(delta)]) == 0)
  {
    hide AtZero, SawText, SawDelta, CallsBegun, ReasoningClosed;
    OneMoreEvent(init, TextDelta(delta));
    if delta == "" {
      BeginningAtZero(init);
    } else {
      DeltaAtZero(init, delta);
    }
  }

  lemma {:induction false} OneAtZero(e: StreamEvent)
    requires AboutMessage(e)
    ensures AtZero([e]) <==> e.outputIndex == 0
  {
    assert [e][0] == e;
  }

  lemma {:induction false} BeginningAtZero(init: seq<ProviderEvent>)
    ensures AtZero(MessageBegins(init)) <==> SawText(init) || IndexAfter(init) == 0
  {
    if !SawText(init) {
      assert AboutMessage(MessageBegins(init)[0]);
    }
  }

  lemma {:induction false} DeltaAtZero(init: seq<ProviderEvent>, delta: string)
    requires delta != ""
    ensures AtZero(News(init, TextDelta(delta))) <==> IndexAfter(init + [TextDelta(delta)]) == 0
  {
    var e := OutputTextDelta(0, delta, MESSAGE_ID, IndexAfter(init + [TextDelta(delta)]));
    OneMoreEvent(init, TextDelta(delta));
    BeginningAtZero(init);
    OneAtZero(e);
    AtZeroConcat(MessageBegins(init), ReasoningEnds(init) + [e]);
    AtZeroConcat(ReasoningEnds(init), [e]);
    assert AtZero(ReasoningEnds(init));
  }

  lemma {:induction false} OpeningAtZero()
    ensures AtZero(Told([]))
  {
  }

  /** The message is said to be done at output index 0, and all that was written about it
      before is at that index too if and only if no text comes after a call has begun or
      after reasoning has ended. */
  lemma {:induction false} MessageAtZeroExactlyWhen(es: seq<ProviderEvent>)
    ensures AtZero(Told(es)) <==> TextFirst(es)
  {
    hide AtZero, News, WritesText, CallsBegun, ReasoningClosed;
    OpeningAtZero();
    if es != [] {
      var (init, ev) := (es[..|es| - 1], es[|es| - 1]);
      assert es == init + [ev];
      MessageAtZeroExactlyWhen(init);
      NewsAtZero(init, ev);
      AtZeroConcat(Told(init), News(init, ev));
    }
  }

  /** So reasoning before the text is enough to put the message at two indices. */
  lemma {:induction false} ReasoningMovesMessage(thought: string, text: string)
    requires thought != "" && text != ""
    ensures !AtZero(Told([ReasoningDelta(thought), TextDelta(text)]))
  {
    var es := [ReasoningDelta(thought), TextDelta(text)];
    var init := es[..1];
    assert init == [ReasoningDelta(thought)] && init[..0] == [];
    MessageAtZeroExactlyWhen(es);
  }
}
