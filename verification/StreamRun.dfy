/** One streamed response from start to end (pkg/engine/engine.go, handleStreaming). */
module StreamRun {
  import opened Wrappers
  import opened ProviderEvents
  import opened StreamEvents
  import ResponseState
  import opened Api

  // ----- What the provider events say, whatever the code makes of them -----

  function TextOf(es: seq<ProviderEvent>): string {
    if es == [] then ""
    else TextOf(es[..|es| - 1]) + (if es[|es| - 1].TextDelta? then es[|es| - 1].delta else "")
  }

  function ReasoningOf(es: seq<ProviderEvent>): string {
    if es == [] then ""
    else ReasoningOf(es[..|es| - 1]) + (if es[|es| - 1].ReasoningDelta? then es[|es| - 1].delta else "")
  }

  predicate IsText(ev: ProviderEvent) {
    ev.TextDelta? || ev.TextDone?
  }

  predicate SawText(es: seq<ProviderEvent>) {
    es != [] && (SawText(es[..|es| - 1]) || IsText(es[|es| - 1]))
  }

  predicate SawCall(es: seq<ProviderEvent>, index: int) {
    es != [] && (SawCall(es[..|es| - 1], index) || (es[|es| - 1].ToolCallDelta? && es[|es| - 1].index == index))
  }

  predicate CompletesCall(ev: ProviderEvent) {
    ev.ToolCallDone? && ev.item.Some? && ev.item.value.FunctionCall?
  }

  /** The calls that were completed after they had begun, without their ids. */
  function CallsDone(es: seq<ProviderEvent>): seq<Item> {
    if es == [] then []
    else
      var (init, last) := (es[..|es| - 1], es[|es| - 1]);
      CallsDone(init) + (if CompletesCall(last) && SawCall(init, last.index) then [Unnamed(last.item.value)] else [])
  }

  function Unnamed(item: Item): Item {
    item.(id := 0)
  }

  function AllUnnamed(items: seq<Item>): seq<Item> {
    seq(|items|, i requires 0 <= i < |items| => Unnamed(items[i]))
  }

  // ----- What the written events say -----

  function TextIn(log: seq<StreamEvent>): string {
    if log == [] then ""
    else TextIn(log[..|log| - 1]) + (if log[|log| - 1].OutputTextDelta? then log[|log| - 1].delta else "")
  }

  predicate IsCallDone(e: StreamEvent) {
    e.OutputItemDone? && e.item.FunctionCall?
  }

  function CallsIn(log: seq<StreamEvent>): seq<Item> {
    if log == [] then []
    else CallsIn(log[..|log| - 1]) + (if IsCallDone(log[|log| - 1]) then [log[|log| - 1].item] else [])
  }

  // ----- The loop, one provider event at a time -----

  /** The loop's variables and the events written so far. */
  datatype Run = Run(a: Assembly, itemAdded: bool, text: string, tools: seq<Item>, log: seq<StreamEvent>)

  const FRESH: Response := Response(ResponseState.InProgress, [], None, None, None)

  const START: Run :=
    Run(Assembly(2, 1, 0, false, 0, 0, false, false, "", map[], 1), false, "", [],
        [ResponseCreated(0, FRESH), ResponseInProgress(1, FRESH)])

  function MessageItem(a: Assembly, status: ItemStatus, output: seq<string>): Item {
    Message(a.itemID, status, Assistant, [], output)
  }

  function LifecycleStart(a: Assembly): seq<StreamEvent> {
    [OutputItemAdded(a.number, MessageItem(a, ItemInProgress, []), a.outputIndex),
     ContentPartAdded(a.number + 1, "", a.itemID, a.outputIndex)]
  }

  function StartText(r: Run): Run {
    if r.itemAdded then r
    else r.(a := r.a.(number := r.a.number + 2), itemAdded := true, log := r.log + LifecycleStart(r.a))
  }

  function Emit(r: Run, s: Step): Run {
    Run(s.after, r.itemAdded, r.text + TextIn(s.events), r.tools + CallsIn(s.events), r.log + s.events)
  }

  function Consume(r: Run, ev: ProviderEvent): Run {
    var b := if IsText(ev) then StartText(r) else r;
    Emit(b, OnProviderEvent(b.a, ev))
  }

  function After(es: seq<ProviderEvent>): Run {
    if es == [] then START else Consume(After(es[..|es| - 1]), es[|es| - 1])
  }

  lemma {:induction false} AfterOneMore(es: seq<ProviderEvent>)
    requires es != []
    ensures var (init, ev) := (es[..|es| - 1], es[|es| - 1]);
      es == init + [ev] && After(es) == Consume(After(init), ev)
  {
  }

  // ----- The end -----

  /** How the loop ends: cancelled, by a stream error, by a done event, or because the
      channel was closed without one. */
  datatype Exit = Cancelled | Failed(error: string) | Finished(status: ResponseState.Status, usage: Option<Usage>)

  function StatusOf(status: Option<ItemStatus>): ResponseState.Status {
    match status
    case Some(ItemIncomplete) => ResponseState.Incomplete
    case Some(ItemFailed) => ResponseState.Failed
    case _ => ResponseState.Completed
  }

  predicate Halts(ev: ProviderEvent) {
    ev.Done? || ev.Failure?
  }

  /** The number of provider events consumed before the loop ends. */
  function StopAt(es: seq<ProviderEvent>, cancelled: nat -> bool, i: nat): (n: nat)
    requires i <= |es|
    ensures i <= n <= |es|
    ensures forall k | i <= k < n :: !cancelled(k) && !Halts(es[k])
    ensures n < |es| ==> cancelled(n) || Halts(es[n])
    decreases |es| - i
  {
    if i == |es| || cancelled(i) || Halts(es[i]) then i else StopAt(es, cancelled, i + 1)
  }

  function ExitOf(es: seq<ProviderEvent>, cancelled: nat -> bool, n: nat): Exit
    requires n <= |es|
  {
    if cancelled(n) then Cancelled
    else if n == |es| then Finished(ResponseState.Incomplete, None)
    else match es[n]
      case Failure(error) => Failed(error)
      case Done(status, usage) => Finished(StatusOf(status), usage)
      case _ => Cancelled
  }

  function FinalMessage(r: Run, status: ResponseState.Status): Item {
    MessageItem(r.a, if status.Incomplete? then ItemIncomplete else ItemCompleted, [r.text])
  }

  /** The items of the final response: reasoning, message, tool calls. */
  function FinalOutput(r: Run, status: ResponseState.Status): seq<Item> {
    (if r.a.reasoningStarted && r.a.accumulatedReasoning != "" then [ReasoningItem(r.a)] else [])
    + (if r.itemAdded then [FinalMessage(r, status)] else [])
    + r.tools
  }

  function PartsDone(r: Run, status: ResponseState.Status): seq<StreamEvent> {
    if !r.itemAdded then []
    else [ContentPartDone(r.a.number, r.text, r.a.itemID, 0), OutputItemDone(r.a.number + 1, FinalMessage(r, status), 0)]
  }

  function LastEvent(n: nat, status: ResponseState.Status, output: seq<Item>, usage: Option<Usage>): StreamEvent {
    if status.Failed? then ResponseFailed(n, Response(status, output, usage, None, None))
    else if status.Incomplete? then ResponseIncomplete(n, Response(status, output, usage, None, Some("max_output_tokens")))
    else ResponseCompleted(n, Response(status, output, usage, None, None))
  }

  function Closing(r: Run, exit: Exit, includeUsage: bool): seq<StreamEvent> {
    match exit
    case Cancelled => [ResponseCancelled(r.a.number, FRESH.(status := ResponseState.Cancelled))]
    case Failed(error) => [ResponseFailed(r.a.number, FRESH.(status := ResponseState.Failed, error := Some(error)))]
    case Finished(status, usage) =>
      PartsDone(r, status)
      + [LastEvent(r.a.number + |PartsDone(r, status)|, status, FinalOutput(r, status), if includeUsage then usage else None)]
  }

  /** All events written for a stream. */
  function LogOf(es: seq<ProviderEvent>, cancelled: nat -> bool, includeUsage: bool): (log: seq<StreamEvent>)
    ensures log != []
  {
    var n := StopAt(es, cancelled, 0);
    After(es[..n]).log + Closing(After(es[..n]), ExitOf(es, cancelled, n), includeUsage)
  }

  function LastOf(es: seq<ProviderEvent>, cancelled: nat -> bool, includeUsage: bool): (last: StreamEvent)
    ensures last.IsTerminal()
  {
    LogOf(es, cancelled, includeUsage)[|LogOf(es, cancelled, includeUsage)| - 1]
  }

  // ----- The code -----

  method EmitItemLifecycleStart(state: StreamState) returns (events: seq<StreamEvent>)
    modifies state
    ensures events == LifecycleStart(old(state.Now()))
    ensures state.Now() == old(state.Now()).(number := old(state.seqNumber) + 2)
  {
    var n := state.NextSeq();
    events := [OutputItemAdded(n, MessageItem(state.Now(), ItemInProgress, []), state.outputIndex)];
    n := state.NextSeq();
    events := events + [ContentPartAdded(n, "", state.itemID, state.outputIndex)];
  }

  /** Scan the events of one step for text and completed calls. */
  method Collect(events: seq<StreamEvent>, text: string, tools: seq<Item>) returns (longer: string, more: seq<Item>)
    ensures longer == text + TextIn(events) && more == tools + CallsIn(events)
  {
    longer, more := text, tools;
    for i := 0 to |events|
      invariant longer == text + TextIn(events[..i]) && more == tools + CallsIn(events[..i])
    {
      assert events[..i + 1][..i] == events[..i];
      if events[i].OutputTextDelta? {
        longer := longer + events[i].delta;
      }
      if events[i].OutputItemDone? && events[i].item.FunctionCall? {
        more := more + [events[i].item];
      }
    }
    assert events[..|events|] == events;
  }

  method EmitStreamComplete(state: StreamState, ghost r: Run, itemAdded: bool, text: string, tools: seq<Item>,
                            status: ResponseState.Status, usage: Option<Usage>)
    returns (events: seq<StreamEvent>)
    requires r == Run(state.Now(), itemAdded, text, tools, r.log)
    modifies state
    ensures events == Closing(r, Finished(status, usage), true)
  {
    var output: seq<Item> := [];
    events := [];
    if state.reasoningStarted && state.accumulatedReasoning != "" {
      output := output + [Reasoning(state.reasoningItemID, ItemCompleted, state.accumulatedReasoning)];
    }
    if itemAdded {
      var n := state.NextSeq();
      events := events + [ContentPartDone(n, text, state.itemID, 0)];
      var item := MessageItem(state.Now(), if status.Incomplete? then ItemIncomplete else ItemCompleted, [text]);
      n := state.NextSeq();
      events := events + [OutputItemDone(n, item, 0)];
      output := output + [item];
    }
    assert events == PartsDone(r, status);
    output := output + tools;
    assert output == FinalOutput(r, status);
    var n := state.NextSeq();
    events := events + [LastEvent(n, status, output, usage)];
  }

  /** The loop's body for an event that does not end it. */
  method Process(state: StreamState, ghost r: Run, ev: ProviderEvent,
                 itemAdded: bool, text: string, tools: seq<Item>, log: seq<StreamEvent>)
    returns (added: bool, longer: string, more: seq<Item>, written: seq<StreamEvent>)
    requires r == Run(state.Now(), itemAdded, text, tools, log)
    modifies state
    ensures Run(state.Now(), added, longer, more, written) == Consume(r, ev)
  {
    hide OnProviderEvent, TextIn, CallsIn;
    added, written := itemAdded, log;
    if !itemAdded && IsText(ev) {
      var opening := EmitItemLifecycleStart(state);
      added, written := true, written + opening;
    }
    var events := state.MapProviderEvent(ev);
    longer, more := Collect(events, text, tools);
    written := written + events;
  }

  /** Consume provider events until one ends the loop or cancellation is seen. */
  method ConsumeEvents(state: StreamState, es: seq<ProviderEvent>, cancelled: nat -> bool, opening: seq<StreamEvent>)
    returns (n: nat, itemAdded: bool, text: string, tools: seq<Item>, log: seq<StreamEvent>)
    requires Run(state.Now(), false, "", [], opening) == START
    modifies state
    ensures n == StopAt(es, cancelled, 0) && Run(state.Now(), itemAdded, text, tools, log) == After(es[..n])
  {
    n, itemAdded, text, tools, log := 0, false, "", [], opening;
    while n < |es| && !cancelled(n) && !Halts(es[n])
      invariant n <= |es| && StopAt(es, cancelled, n) == StopAt(es, cancelled, 0)
      invariant Run(state.Now(), itemAdded, text, tools, log) == After(es[..n])
    {
      assert es[..n + 1][..n] == es[..n];
      itemAdded, text, tools, log := Process(state, After(es[..n]), es[n], itemAdded, text, tools, log);
      n := n + 1;
    }
  }

  method EmitLast(state: StreamState, status: ResponseState.Status, error: Option<string>) returns (events: seq<StreamEvent>)
    requires status.Cancelled? || status.Failed?
    modifies state
    ensures events == [if status.Cancelled? then ResponseCancelled(old(state.seqNumber), FRESH.(status := status))
                       else ResponseFailed(old(state.seqNumber), FRESH.(status := status, error := error))]
  {
    var n := state.NextSeq();
    if status.Cancelled? {
      return [ResponseCancelled(n, FRESH.(status := status))];
    }
    return [ResponseFailed(n, FRESH.(status := status, error := error))];
  }

  /** The closing events: emitCancelled, emitFailed or emitStreamComplete. */
  method Close(state: StreamState, ghost r: Run, es: seq<ProviderEvent>, cancelled: nat -> bool, n: nat, includeUsage: bool,
               itemAdded: bool, text: string, tools: seq<Item>)
    returns (events: seq<StreamEvent>)
    requires n <= |es| && (n < |es| ==> cancelled(n) || Halts(es[n]))
    requires r == Run(state.Now(), itemAdded, text, tools, r.log)
    modifies state
    ensures events == Closing(r, ExitOf(es, cancelled, n), includeUsage)
  {
    if cancelled(n) {
      events := EmitLast(state, ResponseState.Cancelled, None);
    } else if n == |es| {
      events := EmitStreamComplete(state, r, itemAdded, text, tools, ResponseState.Incomplete, None);
    } else if es[n].Failure? {
      events := EmitLast(state, ResponseState.Failed, Some(es[n].error));
    } else {
      var usage := if includeUsage then es[n].usage else None;
      events := EmitStreamComplete(state, r, itemAdded, text, tools, StatusOf(es[n].status), usage);
    }
  }

  /** The writer receives what the loop has made of the events before the stop, and the
      closing events of the exit. */
  method HandleStreaming(es: seq<ProviderEvent>, cancelled: nat -> bool, includeUsage: bool) returns (log: seq<StreamEvent>)
    ensures log == LogOf(es, cancelled, includeUsage)
  {
    var state := new StreamState();
    var first := state.NextSeq();
    var second := state.NextSeq();
    log := [ResponseCreated(first, FRESH), ResponseInProgress(second, FRESH)];
    var id := state.NewItemID();
    state.itemID, state.outputIndex := id, 0;
    var n, itemAdded, text, tools;
    n, itemAdded, text, tools, log := ConsumeEvents(state, es, cancelled, log);
    var events := Close(state, After(es[..n]), es, cancelled, n, includeUsage, itemAdded, text, tools);
    log := log + events;
  }
}
