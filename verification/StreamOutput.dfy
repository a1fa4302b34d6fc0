/** What a streamed response says in the end, and that its events add up to it
    (pkg/engine/engine.go, handleStreaming and emitStreamComplete). */
module StreamOutput {
  import opened Wrappers
  import opened ProviderEvents
  import opened StreamEvents
  import opened StreamRun
  import opened StreamProtocol
  import opened Sequences
  import ResponseState
  import opened Api

  // ----- Contents of logs -----

  function ReasoningIn(log: seq<StreamEvent>): string {
    if log == [] then ""
    else ReasoningIn(log[..|log| - 1]) + (if log[|log| - 1].ReasoningTextDelta? then log[|log| - 1].delta else "")
  }

  lemma {:induction false} OneMore(log: seq<StreamEvent>, e: StreamEvent)
    ensures TextIn(log + [e]) == TextIn(log) + (if e.OutputTextDelta? then e.delta else "")
    ensures ReasoningIn(log + [e]) == ReasoningIn(log) + (if e.ReasoningTextDelta? then e.delta else "")
    ensures CallsIn(log + [e]) == CallsIn(log) + (if IsCallDone(e) then [e.item] else [])
  {
    assert (log + [e])[..|log|] == log;
  }

  lemma {:induction false} Concat(a: seq<StreamEvent>, b: seq<StreamEvent>)
    ensures TextIn(a + b) == TextIn(a) + TextIn(b)
    ensures ReasoningIn(a + b) == ReasoningIn(a) + ReasoningIn(b)
    decreases |b|
  {
    if b == [] {
      assert a + b == a;
    } else {
      var (init, last) := (b[..|b| - 1], b[|b| - 1]);
      assert (a + b)[..|a + b| - 1] == a + init;
      Concat(a, init);
      Assoc(TextIn(a), TextIn(init), if last.OutputTextDelta? then last.delta else "");
      Assoc(ReasoningIn(a), ReasoningIn(init), if last.ReasoningTextDelta? then last.delta else "");
    }
  }

  /** Neither text, reasoning nor a completed call. */
  predicate Silent(e: StreamEvent) {
    !e.OutputTextDelta? && !e.ReasoningTextDelta? && !IsCallDone(e)
  }

  lemma {:induction false} SilentEvents(events: seq<StreamEvent>)
    requires forall i | 0 <= i < |events| :: Silent(events[i])
    ensures TextIn(events) == "" && ReasoningIn(events) == "" && CallsIn(events) == []
  {
    if events != [] {
      SilentEvents(events[..|events| - 1]);
    }
  }

  lemma {:induction false} LastSpeaks(init: seq<StreamEvent>, last: StreamEvent)
    requires forall i | 0 <= i < |init| :: Silent(init[i])
    ensures TextIn(init + [last]) == (if last.OutputTextDelta? then last.delta else "")
    ensures ReasoningIn(init + [last]) == (if last.ReasoningTextDelta? then last.delta else "")
    ensures CallsIn(init + [last]) == (if IsCallDone(last) then [last.item] else [])
  {
    SilentEvents(init);
    OneMore(init, last);
  }

  lemma {:induction false} TextDeltaContents(a: Assembly, delta: string)
    ensures var events := OnTextDelta(a, delta).events;
      TextIn(events) == delta && ReasoningIn(events) == "" && CallsIn(events) == []
  {
    if delta != "" {
      var r := OnReasoningDone(a);
      LastSpeaks(r.events, OutputTextDelta(r.after.number, delta, r.after.itemID, r.after.outputIndex));
    }
  }

  lemma {:induction false} ReasoningDeltaContents(a: Assembly, delta: string)
    ensures var events := OnReasoningDelta(a, delta).events;
      TextIn(events) == "" && ReasoningIn(events) == delta && CallsIn(events) == []
  {
    if delta != "" {
      var r := OpenReasoning(a);
      LastSpeaks(r.events, ReasoningTextDelta(r.after.number, delta, r.after.reasoningItemID, r.after.reasoningOutputIndex));
    }
  }

  lemma {:induction false} ToolCallDoneContents(a: Assembly, index: int, delta: string, item: Option<Item>)
    ensures var events := OnToolCallDone(a, index, delta, item).events;
      && TextIn(events) == "" && ReasoningIn(events) == ""
      && CallsIn(events) == (if index in a.toolItems && item.Some? && item.value.FunctionCall?
                             then [WithID(item.value, a.toolItems[index].itemID)] else [])
  {
    if index in a.toolItems {
      var events := OnToolCallDone(a, index, delta, item).events;
      if item.Some? {
        LastSpeaks([events[0]], events[1]);
        assert events == [events[0]] + [events[1]];
      } else {
        SilentEvents(events);
      }
    }
  }

  lemma {:induction false} OpeningIsSilent(a: Assembly, index: int, callID: string, name: string)
    ensures var events := OpenToolCall(a, index, callID, name).events;
      forall i | 0 <= i < |events| :: Silent(events[i])
  {
  }

  lemma {:induction false} ToolCallDeltaContents(a: Assembly, index: int, callID: string, name: string, delta: string)
    ensures var events := OnToolCallDelta(a, index, callID, name, delta).events;
      TextIn(events) == "" && ReasoningIn(events) == "" && CallsIn(events) == []
  {
    OpeningIsSilent(a, index, callID, name);
    var r := OpenToolCall(a, index, callID, name);
    if delta == "" {
      SilentEvents(r.events);
    } else {
      var item := r.after.toolItems[index];
      LastSpeaks(r.events, ArgumentsDelta(r.after.number, delta, item.itemID, item.outputIndex));
    }
  }

  lemma {:induction false} ReasoningDoneContents(a: Assembly)
    ensures var events := OnReasoningDone(a).events;
      TextIn(events) == "" && ReasoningIn(events) == "" && CallsIn(events) == []
  {
    SilentEvents(OnReasoningDone(a).events);
  }

  lemma {:induction false} TextDoneContents(a: Assembly, delta: string)
    ensures var events := OnTextDone(a, delta).events;
      TextIn(events) == "" && ReasoningIn(events) == "" && CallsIn(events) == []
  {
    SilentEvents(OnTextDone(a, delta).events);
  }

  function TextOfEvent(ev: ProviderEvent): string {
    if ev.TextDelta? then ev.delta else ""
  }

  function ReasoningOfEvent(ev: ProviderEvent): string {
    if ev.ReasoningDelta? then ev.delta else ""
  }

  function CallOfEvent(a: Assembly, ev: ProviderEvent): seq<Item> {
    if CompletesCall(ev) && ev.index in a.toolItems then [WithID(ev.item.value, a.toolItems[ev.index].itemID)] else []
  }

  /** One step emits the text and the reasoning it was given, and completes a call that
      was completed after it had begun. */
  lemma {:induction false} StepContents(a: Assembly, ev: ProviderEvent)
    ensures var events := OnProviderEvent(a, ev).events;
      && TextIn(events) == TextOfEvent(ev)
      && ReasoningIn(events) == ReasoningOfEvent(ev)
      && CallsIn(events) == CallOfEvent(a, ev)
  {
    if ev.ToolCallDone? {
      ToolCallDoneContents(a, ev.index, ev.delta, ev.item);
    } else {
      NoCallOfEvent(a, ev);
    }
  }

  lemma {:induction false} NoCallOfEvent(a: Assembly, ev: ProviderEvent)
    requires !ev.ToolCallDone?
    ensures var events := OnProviderEvent(a, ev).events;
      TextIn(events) == TextOfEvent(ev) && ReasoningIn(events) == ReasoningOfEvent(ev) && CallsIn(events) == []
  {
    match ev
    case ReasoningDelta(delta) => ReasoningDeltaContents(a, delta);
    case ReasoningDone => ReasoningDoneContents(a);
    case TextDelta(delta) => TextDeltaContents(a, delta);
    case TextDone(delta) => TextDoneContents(a, delta);
    case ToolCallDelta(index, callID, name, delta) => ToolCallDeltaContents(a, index, callID, name, delta);
    case Done(_, _) =>
    case Failure(_) =>
  }

  // ----- The run says what the provider said -----

  predicate TextFaithful(r: Run, es: seq<ProviderEvent>) {
    r.text == TextOf(es) == TextIn(r.log)
  }

  predicate ReasoningFaithful(r: Run, es: seq<ProviderEvent>) {
    && r.a.accumulatedReasoning == ReasoningOf(es) == ReasoningIn(r.log)
    && (r.a.reasoningStarted <==> ReasoningOf(es) != "")
  }

  ghost predicate CallsFaithful(r: Run, es: seq<ProviderEvent>) {
    && (forall k :: k in r.a.toolItems <==> SawCall(es, k))
    && AllUnnamed(r.tools) == CallsDone(es)
    && (forall i | 0 <= i < |r.tools| :: Added(r.log, r.tools[i].id))
  }

  lemma {:induction false} StepState(a: Assembly, ev: ProviderEvent)
    ensures var b := OnProviderEvent(a, ev).after;
      && b.accumulatedReasoning == a.accumulatedReasoning + ReasoningOfEvent(ev)
      && (b.reasoningStarted <==> a.reasoningStarted || ReasoningOfEvent(ev) != "")
      && (forall k :: k in b.toolItems <==> k in a.toolItems || (ev.ToolCallDelta? && ev.index == k))
  {
  }

  lemma {:induction false} StaysAdded(log: seq<StreamEvent>, more: seq<StreamEvent>, id: ItemId)
    requires Added(log, id)
    ensures Added(log + more, id)
    decreases |more|
  {
    if more == [] {
      assert log + more == log;
    } else {
      StaysAdded(log, more[..|more| - 1], id);
      assert (log + more)[..|log + more| - 1] == log + more[..|more| - 1];
    }
  }

  /** Announcing the message item says nothing yet. */
  lemma {:induction false} StartTextFaithful(r: Run, es: seq<ProviderEvent>)
    requires TextFaithful(r, es) && ReasoningFaithful(r, es) && CallsFaithful(r, es)
    ensures var b := StartText(r); TextFaithful(b, es) && ReasoningFaithful(b, es) && CallsFaithful(b, es)
  {
    if !r.itemAdded {
      SilentEvents(LifecycleStart(r.a));
      Concat(r.log, LifecycleStart(r.a));
      forall i | 0 <= i < |r.tools|
        ensures Added(r.log + LifecycleStart(r.a), r.tools[i].id)
      {
        StaysAdded(r.log, LifecycleStart(r.a), r.tools[i].id);
      }
    }
  }

  lemma {:induction false} EmitText(r: Run, s: Step, es: seq<ProviderEvent>, ev: ProviderEvent)
    requires TextFaithful(r, es) && ReasoningFaithful(r, es)
    requires TextIn(s.events) == TextOfEvent(ev) && ReasoningIn(s.events) == ReasoningOfEvent(ev)
    requires s.after.accumulatedReasoning == r.a.accumulatedReasoning + ReasoningOfEvent(ev)
    requires s.after.reasoningStarted <==> r.a.reasoningStarted || ReasoningOfEvent(ev) != ""
    ensures TextFaithful(Emit(r, s), es + [ev]) && ReasoningFaithful(Emit(r, s), es + [ev])
  {
    assert (es + [ev])[..|es|] == es;
    Concat(r.log, s.events);
  }

  /** The items of completed calls were announced under their index. */
  lemma {:induction false} EmitCalls(r: Run, s: Step, es: seq<ProviderEvent>, ev: ProviderEvent)
    requires CallsFaithful(r, es) && (forall k | k in r.a.toolItems :: Added(r.log, r.a.toolItems[k].itemID))
    requires CallsIn(s.events) == CallOfEvent(r.a, ev)
    requires forall k :: k in s.after.toolItems <==> k in r.a.toolItems || (ev.ToolCallDelta? && ev.index == k)
    ensures CallsFaithful(Emit(r, s), es + [ev])
  {
    assert (es + [ev])[..|es|] == es;
    var (known, more) := (r.tools, CallOfEvent(r.a, ev));
    assert AllUnnamed(known + more) == AllUnnamed(known) + AllUnnamed(more);
    forall i | 0 <= i < |known + more|
      ensures Added(r.log + s.events, (known + more)[i].id)
    {
      StaysAdded(r.log, s.events, (known + more)[i].id);
    }
  }

  lemma {:induction false} ConsumeFaithful(r: Run, es: seq<ProviderEvent>, ev: ProviderEvent)
    requires TextFaithful(r, es) && ReasoningFaithful(r, es) && CallsFaithful(r, es) && Linked(r.a, r.itemAdded, r.log)
    ensures var b := Consume(r, ev);
      TextFaithful(b, es + [ev]) && ReasoningFaithful(b, es + [ev]) && CallsFaithful(b, es + [ev])
  {
    if IsText(ev) {
      StartTextFaithful(r, es);
      if !r.itemAdded {
        NewMessage(r.a, r.log);
      }
    }
    var b := if IsText(ev) then StartText(r) else r;
    StepContents(b.a, ev);
    StepState(b.a, ev);
    EmitText(b, OnProviderEvent(b.a, ev), es, ev);
    EmitCalls(b, OnProviderEvent(b.a, ev), es, ev);
  }

  lemma {:induction false} ConsumeAdds(r: Run, ev: ProviderEvent)
    ensures Consume(r, ev).itemAdded <==> r.itemAdded || IsText(ev)
  {
  }

  /** The loop's variables hold what the provider said: the text and the reasoning as
      they were streamed to the client, and the completed calls. */
  ghost predicate Faithful(r: Run, es: seq<ProviderEvent>) {
    && TextFaithful(r, es) && ReasoningFaithful(r, es) && CallsFaithful(r, es)
    && (r.itemAdded <==> SawText(es))
  }

  lemma {:induction false} AfterFaithful(es: seq<ProviderEvent>)
    ensures Faithful(After(es), es)
  {
    if es == [] {
      StartFaithful();
    } else {
      var (init, ev) := (es[..|es| - 1], es[|es| - 1]);
      AfterFaithful(init);
      AfterLinked(init);
      ConsumeFaithful(After(init), init, ev);
      ConsumeAdds(After(init), ev);
      AfterOneMore(es);
    }
  }

  lemma {:induction false} SilentFaithful(r: Run)
    requires r.text == "" && r.tools == [] && !r.itemAdded
    requires !r.a.reasoningStarted && r.a.accumulatedReasoning == "" && r.a.toolItems == map[]
    requires forall i | 0 <= i < |r.log| :: Silent(r.log[i])
    ensures Faithful(r, [])
  {
    SilentEvents(r.log);
  }

  lemma {:induction false} StartFaithful()
    ensures Faithful(START, [])
  {
    SilentFaithful(START);
  }

  // ----- Every run, to its end -----

  lemma {:induction false} PartsLinked(r: Run, status: ResponseState.Status)
    requires Linked(r.a, r.itemAdded, r.log)
    ensures var log := r.log + PartsDone(r, status); Open(log) && |log| == r.a.number + |PartsDone(r, status)|
  {
    var parts := PartsDone(r, status);
    if r.itemAdded {
      Plain(r.a, r.itemAdded, r.log, parts[0]);
      Append(r.log, parts[0]);
      Plain(r.a.(number := r.a.number + 1), r.itemAdded, r.log + [parts[0]], parts[1]);
      assert r.log + parts == r.log + [parts[0]] + [parts[1]];
    } else {
      assert r.log + parts == r.log;
    }
  }

  lemma {:induction false} PartsSilent(r: Run, status: ResponseState.Status)
    ensures TextIn(r.log + PartsDone(r, status)) == TextIn(r.log)
  {
    SilentEvents(PartsDone(r, status));
    Concat(r.log, PartsDone(r, status));
  }

  lemma {:induction false} TerminalProper(log: seq<StreamEvent>, e: StreamEvent)
    requires Open(log) && e.IsTerminal() && e.number == |log|
    ensures Proper(log + [e]) && TextIn(log + [e]) == TextIn(log)
  {
    Append(log, e);
    OneMore(log, e);
  }

  function PartsOf(r: Run, exit: Exit): seq<StreamEvent> {
    if exit.Finished? then PartsDone(r, exit.status) else []
  }

  lemma {:induction false} ClosingShape(r: Run, exit: Exit, includeUsage: bool) returns (last: StreamEvent)
    ensures Closing(r, exit, includeUsage) == PartsOf(r, exit) + [last]
    ensures last.IsTerminal() && last.number == r.a.number + |PartsOf(r, exit)|
  {
    var closing := Closing(r, exit, includeUsage);
    last := closing[|closing| - 1];
  }

  /** The closing events keep the protocol, and end it. */
  lemma {:induction false} ClosingProper(r: Run, exit: Exit, includeUsage: bool)
    requires Linked(r.a, r.itemAdded, r.log)
    ensures var log := r.log + Closing(r, exit, includeUsage);
      Proper(log) && log[|log| - 1].IsTerminal() && TextIn(log) == TextIn(r.log)
  {
    var last := ClosingShape(r, exit, includeUsage);
    var parts := PartsOf(r, exit);
    if exit.Finished? {
      PartsLinked(r, exit.status);
      PartsSilent(r, exit.status);
    } else {
      assert r.log + parts == r.log;
    }
    TerminalProper(r.log + parts, last);
    assert r.log + (parts + [last]) == r.log + parts + [last];
  }

  lemma {:induction false} ClosingParts(r: Run, exit: Exit, includeUsage: bool, i: nat)
    requires NoPart(r.log)
    requires var log := r.log + Closing(r, exit, includeUsage); i < |log| && log[i].ContentPartDone?
    ensures (r.log + Closing(r, exit, includeUsage))[i].text == r.text
  {
    var last := ClosingShape(r, exit, includeUsage);
  }

  lemma {:induction false} RunIsProper(es: seq<ProviderEvent>, exit: Exit, includeUsage: bool)
    ensures var log := After(es).log + Closing(After(es), exit, includeUsage);
      && Proper(log) && log[|log| - 1].IsTerminal()
      && TextIn(log) == TextOf(es)
      && (forall i | 0 <= i < |log| && log[i].ContentPartDone? :: log[i].text == TextIn(log))
  {
    AfterLinked(es);
    AfterFaithful(es);
    NoPartDone(es);
    var r := After(es);
    ClosingProper(r, exit, includeUsage);
    forall i | 0 <= i < |r.log + Closing(r, exit, includeUsage)| && (r.log + Closing(r, exit, includeUsage))[i].ContentPartDone?
      ensures (r.log + Closing(r, exit, includeUsage))[i].text == r.text
    {
      ClosingParts(r, exit, includeUsage, i);
    }
  }

  predicate NoPart(log: seq<StreamEvent>) {
    forall i | 0 <= i < |log| :: !log[i].ContentPartDone?
  }

  lemma {:induction false} StepNoPart(a: Assembly, ev: ProviderEvent)
    ensures NoPart(OnProviderEvent(a, ev).events)
  {
  }

  lemma {:induction false} ConsumeNoPart(r: Run, ev: ProviderEvent)
    requires NoPart(r.log)
    ensures NoPart(Consume(r, ev).log)
  {
    var b := if IsText(ev) then StartText(r) else r;
    StepNoPart(b.a, ev);
    assert NoPart(b.log);
  }

  lemma {:induction false} NoPartDone(es: seq<ProviderEvent>)
    ensures NoPart(After(es).log)
  {
    if es != [] {
      NoPartDone(es[..|es| - 1]);
      ConsumeNoPart(After(es[..|es| - 1]), es[|es| - 1]);
    }
  }

  // ----- The final response -----

  /** What the final response must hold, from the provider events alone. */
  function OutputSaid(es: seq<ProviderEvent>, status: ResponseState.Status): seq<Item> {
    (if ReasoningOf(es) != "" then [Reasoning(0, ItemCompleted, ReasoningOf(es))] else [])
    + (if SawText(es) then [Message(0, if status.Incomplete? then ItemIncomplete else ItemCompleted, Assistant, [], [TextOf(es)])] else [])
    + CallsDone(es)
  }

  lemma {:induction false} UnnamedConcat(a: seq<Item>, b: seq<Item>)
    ensures AllUnnamed(a + b) == AllUnnamed(a) + AllUnnamed(b)
  {
  }

  /** Up to ids the final output is what the provider said. */
  lemma {:induction false} FinalOutputSays(es: seq<ProviderEvent>, status: ResponseState.Status)
    ensures AllUnnamed(FinalOutput(After(es), status)) == OutputSaid(es, status)
  {
    AfterFaithful(es);
    UnnamedOutput(After(es), status);
  }

  lemma {:induction false} UnnamedOutput(r: Run, status: ResponseState.Status)
    ensures AllUnnamed(FinalOutput(r, status)) ==
      (if r.a.reasoningStarted && r.a.accumulatedReasoning != "" then [Reasoning(0, ItemCompleted, r.a.accumulatedReasoning)] else [])
      + (if r.itemAdded
         then [Message(0, if status.Incomplete? then ItemIncomplete else ItemCompleted, Assistant, [], [r.text])] else [])
      + AllUnnamed(r.tools)
  {
    var thought := if r.a.reasoningStarted && r.a.accumulatedReasoning != "" then [ReasoningItem(r.a)] else [];
    var text := if r.itemAdded then [FinalMessage(r, status)] else [];
    UnnamedConcat(thought + text, r.tools);
    UnnamedConcat(thought, text);
  }

  lemma {:induction false} CallsInConcat(a: seq<StreamEvent>, b: seq<StreamEvent>)
    ensures CallsIn(a + b) == CallsIn(a) + CallsIn(b)
    decreases |b|
  {
    if b == [] {
      assert a + b == a;
    } else {
      var (init, last) := (b[..|b| - 1], b[|b| - 1]);
      assert (a + b)[..|a + b| - 1] == a + init;
      CallsInConcat(a, init);
      Assoc(CallsIn(a), CallsIn(init), if IsCallDone(last) then [last.item] else []);
    }
  }

  lemma {:induction false} ToolsAreLogged(es: seq<ProviderEvent>)
    ensures After(es).tools == CallsIn(After(es).log)
  {
    if es == [] {
      SilentEvents(START.log);
    } else {
      var (init, ev) := (es[..|es| - 1], es[|es| - 1]);
      ToolsAreLogged(init);
      AfterOneMore(es);
      ConsumeLogsTools(After(init), ev);
    }
  }

  lemma {:induction false} ConsumeLogsTools(r: Run, ev: ProviderEvent)
    requires r.tools == CallsIn(r.log)
    ensures Consume(r, ev).tools == CallsIn(Consume(r, ev).log)
  {
    hide CallsIn, OnProviderEvent;
    if !r.itemAdded {
      SilentEvents(LifecycleStart(r.a));
      CallsInConcat(r.log, LifecycleStart(r.a));
    }
    var b := if IsText(ev) then StartText(r) else r;
    CallsInConcat(b.log, OnProviderEvent(b.a, ev).events);
  }

  lemma {:induction false} CallLogged(log: seq<StreamEvent>, item: Item) returns (j: nat)
    requires item in CallsIn(log)
    ensures j < |log| && log[j].OutputItemDone? && log[j].item == item
  {
    var n := |log| - 1;
    if IsCallDone(log[n]) && log[n].item == item {
      j := n;
    } else {
      j := CallLogged(log[..n], item);
    }
  }

  // ----- The last event -----

  /** A final response made from these provider events. */
  predicate Says(resp: Response, es: seq<ProviderEvent>, status: ResponseState.Status, usage: Option<Usage>) {
    && AllUnnamed(resp.output) == OutputSaid(es, status)
    && resp.status == status && resp.usage == usage && resp.error.None?
    && resp.incompleteReason == (if status == ResponseState.Incomplete then Some("max_output_tokens") else None)
  }

  /** What must be written last when n provider events have been consumed. */
  predicate EndsAs(last: StreamEvent, es: seq<ProviderEvent>, cancelled: nat -> bool, includeUsage: bool, n: nat)
    requires n <= |es|
  {
    if cancelled(n) then
      last.ResponseCancelled? && last.resp == Response(ResponseState.Cancelled, [], None, None, None)
    else if n == |es| then
      last.ResponseIncomplete? && Says(last.resp, es[..n], ResponseState.Incomplete, None)
    else
      match es[n]
      case Failure(error) =>
        last.ResponseFailed? && last.resp == Response(ResponseState.Failed, [], None, Some(error), None)
      case Done(status, usage) =>
        var shown := if includeUsage then usage else None;
        (match status
         case Some(ItemIncomplete) => last.ResponseIncomplete? && Says(last.resp, es[..n], ResponseState.Incomplete, shown)
         case Some(ItemFailed) => last.ResponseFailed? && Says(last.resp, es[..n], ResponseState.Failed, shown)
         case _ => last.ResponseCompleted? && Says(last.resp, es[..n], ResponseState.Completed, shown))
      case _ => false
  }

  /** The loop stops at the first event before which cancellation is seen, or that is an
      error or the done event; the last event written tells which it was, and a response
      that was finished holds just what the provider had said until then. */
  lemma {:induction false} LastEventSays(es: seq<ProviderEvent>, cancelled: nat -> bool, includeUsage: bool)
    ensures var n := StopAt(es, cancelled, 0);
      && (forall k | 0 <= k < n :: !cancelled(k) && !es[k].Done? && !es[k].Failure?)
      && EndsAs(LastOf(es, cancelled, includeUsage), es, cancelled, includeUsage, n)
  {
    var n := StopAt(es, cancelled, 0);
    var exit := ExitOf(es, cancelled, n);
    ClosingEnds(After(es[..n]), exit, includeUsage);
    if exit.Finished? {
      FinalOutputSays(es[..n], exit.status);
    }
  }

  lemma {:induction false} LastIsClosing(es: seq<ProviderEvent>, cancelled: nat -> bool, includeUsage: bool)
    ensures var n := StopAt(es, cancelled, 0); var closing := Closing(After(es[..n]), ExitOf(es, cancelled, n), includeUsage);
      closing != [] && LastOf(es, cancelled, includeUsage) == closing[|closing| - 1]
  {
  }

  lemma {:induction false} ClosingEnds(r: Run, exit: Exit, includeUsage: bool)
    ensures var closing := Closing(r, exit, includeUsage); var last := closing[|closing| - 1];
      match exit
      case Cancelled => last.ResponseCancelled? && last.resp == Response(ResponseState.Cancelled, [], None, None, None)
      case Failed(error) => last.ResponseFailed? && last.resp == Response(ResponseState.Failed, [], None, Some(error), None)
      case Finished(status, usage) =>
        && last.resp == Response(status, FinalOutput(r, status), if includeUsage then usage else None, None,
                                 if status.Incomplete? then Some("max_output_tokens") else None)
        && (if status.Failed? then last.ResponseFailed?
            else if status.Incomplete? then last.ResponseIncomplete?
            else last.ResponseCompleted?)
  {
  }

  /** For every sequence of provider events and every way to end: the written events are
      proper, the last one alone is terminal, and the text of a finished part is all the
      text that was written. */
  lemma {:induction false} EveryStreamIsProper(es: seq<ProviderEvent>, cancelled: nat -> bool, includeUsage: bool)
    ensures var n := StopAt(es, cancelled, 0); var log := LogOf(es, cancelled, includeUsage);
      && Proper(log) && log[|log| - 1].IsTerminal() && EndsAs(log[|log| - 1], es, cancelled, includeUsage, n)
      && TextIn(log) == TextOf(es[..n])
      && (forall i | 0 <= i < |log| && log[i].ContentPartDone? :: log[i].text == TextIn(log))
  {
    var n := StopAt(es, cancelled, 0);
    RunIsProper(es[..n], ExitOf(es, cancelled, n), includeUsage);
    LastEventSays(es, cancelled, includeUsage);
  }

  // ----- The final response -----

  predicate DoneIn(log: seq<StreamEvent>, item: Item) {
    exists j :: 0 <= j < |log| && log[j].OutputItemDone? && log[j].item == item
  }

  /** Each item of a final response was announced to the client, and each but the
      reasoning was also written as done, just as it is in the response. */
  lemma {:induction false} FinalOutputAnnounced(es: seq<ProviderEvent>, cancelled: nat -> bool, includeUsage: bool, i: nat)
    requires i < |LastOf(es, cancelled, includeUsage).resp.output|
    ensures var (log, item) := (LogOf(es, cancelled, includeUsage), LastOf(es, cancelled, includeUsage).resp.output[i]);
      Added(log, item.id) && (item.Reasoning? || DoneIn(log, item))
  {
    var n := StopAt(es, cancelled, 0);
    var exit := ExitOf(es, cancelled, n);
    var (r, closing) := (After(es[..n]), Closing(After(es[..n]), exit, includeUsage));
    ClosingEnds(r, exit, includeUsage);
    if exit.Finished? {
      var item := FinalOutput(r, exit.status)[i];
      OutputAnnounced(es[..n], exit.status, i);
      StaysAdded(r.log, closing, item.id);
      if item in r.tools {
        ToolsAreLogged(es[..n]);
        var j := CallLogged(r.log, item);
        assert (r.log + closing)[j] == r.log[j];
      } else if !item.Reasoning? {
        MessageIsDone(r, exit, includeUsage, i);
        assert (r.log + closing)[|r.log| + 1] == closing[1];
      }
    }
  }

  lemma {:induction false} MessageIsDone(r: Run, exit: Exit, includeUsage: bool, i: nat)
    requires exit.Finished? && i < |FinalOutput(r, exit.status)|
    requires FinalOutput(r, exit.status)[i] !in r.tools && !FinalOutput(r, exit.status)[i].Reasoning?
    ensures var closing := Closing(r, exit, includeUsage);
      |closing| > 1 && closing[1].OutputItemDone? && closing[1].item == FinalOutput(r, exit.status)[i]
  {
    var thought := if r.a.reasoningStarted && r.a.accumulatedReasoning != "" then [ReasoningItem(r.a)] else [];
    var text := if r.itemAdded then [FinalMessage(r, exit.status)] else [];
    assert FinalOutput(r, exit.status) == thought + text + r.tools;
  }

  lemma {:induction false} OutputAnnounced(es: seq<ProviderEvent>, status: ResponseState.Status, i: nat)
    requires i < |FinalOutput(After(es), status)|
    ensures Added(After(es).log, FinalOutput(After(es), status)[i].id)
  {
    AfterLinked(es);
    AfterFaithful(es);
    var r := After(es);
    assert forall k | 0 <= k < |r.tools| :: Added(r.log, r.tools[k].id);
  }
}
