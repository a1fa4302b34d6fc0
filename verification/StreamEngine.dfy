/** The events written to a client while a response is streamed (pkg/api/events.go) and
    the state that maps provider events to them (pkg/engine/events.go). */
module StreamEvents {
  import opened Wrappers
  import opened ProviderEvents
  import opened ResponseState
  import opened Api

  datatype Response = Response(
    status: Status, output: seq<Item>, usage: Option<Usage>, error: Option<string>, incompleteReason: Option<string>)

  datatype StreamEvent =
    | ResponseCreated(number: nat, resp: Response)
    | ResponseInProgress(number: nat, resp: Response)
    | OutputItemAdded(number: nat, item: Item, outputIndex: int)
    | ContentPartAdded(number: nat, text: string, itemID: ItemId, outputIndex: int)
    | OutputTextDelta(number: nat, delta: string, itemID: ItemId, outputIndex: int)
    | OutputTextDone(number: nat, delta: string, itemID: ItemId, outputIndex: int)
    | ArgumentsDelta(number: nat, delta: string, itemID: ItemId, outputIndex: int)
    | ArgumentsDone(number: nat, delta: string, itemID: ItemId, outputIndex: int)
    | ReasoningTextDelta(number: nat, delta: string, itemID: ItemId, outputIndex: int)
    | ReasoningTextDone(number: nat, itemID: ItemId, outputIndex: int)
    | ContentPartDone(number: nat, text: string, itemID: ItemId, outputIndex: int)
    | OutputItemDone(number: nat, item: Item, outputIndex: int)
    | ResponseCompleted(number: nat, resp: Response)
    | ResponseIncomplete(number: nat, resp: Response)
    | ResponseFailed(number: nat, resp: Response)
    | ResponseCancelled(number: nat, resp: Response)
  {
    predicate IsOpening() {
      ResponseCreated? || ResponseInProgress?
    }

    predicate IsTerminal() {
      ResponseCompleted? || ResponseIncomplete? || ResponseFailed? || ResponseCancelled?
    }

    /** Events that carry the output index of the item they are about. */
    predicate IsIndexed() {
      ArgumentsDelta? || ArgumentsDone? || ReasoningTextDelta? || ReasoningTextDone?
    }

    /** The item that an event after `OutputItemAdded` is about. */
    function Subject(): Option<ItemId> {
      if IsOpening() || IsTerminal() || OutputItemAdded? then None
      else if OutputItemDone? then Some(item.id)
      else Some(itemID)
    }
  }

  datatype ToolCallItem = ToolCallItem(itemID: ItemId, outputIndex: int)

  /** The fields of streamState as a value. `issued` counts the item ids drawn so far:
      the n-th is n. An entry of `toolItems` is made with its first event, so there is no
      need for a flag that says whether it has started. */
  datatype Assembly = Assembly(
    number: nat, itemID: ItemId, outputIndex: int, textStarted: bool,
    reasoningItemID: ItemId, reasoningOutputIndex: int, reasoningStarted: bool, reasoningDone: bool,
    accumulatedReasoning: string, toolItems: map<int, ToolCallItem>, issued: nat)

  function WithID(item: Item, id: ItemId): Item {
    item.(id := id)
  }

  datatype Step = Step(after: Assembly, events: seq<StreamEvent>)

  function ReasoningItem(a: Assembly): Item {
    Reasoning(a.reasoningItemID, ItemCompleted, a.accumulatedReasoning)
  }

  function OnReasoningDone(a: Assembly): Step {
    if !a.reasoningStarted || a.reasoningDone then Step(a, [])
    else
      Step(a.(number := a.number + 2, reasoningDone := true, outputIndex := a.outputIndex + 1),
           [ReasoningTextDone(a.number, a.reasoningItemID, a.reasoningOutputIndex),
            OutputItemDone(a.number + 1, ReasoningItem(a), a.reasoningOutputIndex)])
  }

  function OnTextDelta(a: Assembly, delta: string): Step {
    if delta == "" then Step(a.(textStarted := true), [])
    else
      var r := OnReasoningDone(a);
      var b := r.after;
      Step(b.(textStarted := true, number := b.number + 1),
           r.events + [OutputTextDelta(b.number, delta, b.itemID, b.outputIndex)])
  }

  function OnTextDone(a: Assembly, delta: string): Step {
    if !a.textStarted then Step(a, [])
    else Step(a.(number := a.number + 1), [OutputTextDone(a.number, delta, a.itemID, a.outputIndex)])
  }

  /** Make the item of a tool call that is new. */
  function OpenToolCall(a: Assembly, index: int, callID: string, name: string): Step {
    if index in a.toolItems then Step(a, [])
    else
      var item := ToolCallItem(a.issued + 1, a.outputIndex + 1);
      Step(a.(number := a.number + 1, outputIndex := a.outputIndex + 1, issued := a.issued + 1,
              toolItems := a.toolItems[index := item]),
           [OutputItemAdded(a.number, FunctionCall(item.itemID, ItemInProgress, ToolCall(callID, name, "")), item.outputIndex)])
  }

  function OnToolCallDelta(a: Assembly, index: int, callID: string, name: string, delta: string): Step {
    var r := OpenToolCall(a, index, callID, name);
    var b := r.after;
    if delta == "" then r
    else
      var item := b.toolItems[index];
      Step(b.(number := b.number + 1), r.events + [ArgumentsDelta(b.number, delta, item.itemID, item.outputIndex)])
  }

  function OnToolCallDone(a: Assembly, index: int, delta: string, item: Option<Item>): Step {
    if index !in a.toolItems then Step(a, [])
    else
      var known := a.toolItems[index];
      var done := ArgumentsDone(a.number, delta, known.itemID, known.outputIndex);
      if item.None? then Step(a.(number := a.number + 1), [done])
      else
        Step(a.(number := a.number + 2),
             [done, OutputItemDone(a.number + 1, WithID(item.value, known.itemID), known.outputIndex)])
  }

  function OpenReasoning(a: Assembly): Step {
    if a.reasoningStarted then Step(a, [])
    else
      Step(a.(number := a.number + 1, issued := a.issued + 1, reasoningItemID := a.issued + 1,
              reasoningOutputIndex := a.outputIndex, reasoningStarted := true),
           [OutputItemAdded(a.number, Reasoning(a.issued + 1, ItemInProgress, ""), a.outputIndex)])
  }

  function OnReasoningDelta(a: Assembly, delta: string): Step {
    if delta == "" then Step(a, [])
    else
      var r := OpenReasoning(a);
      var b := r.after;
      Step(b.(number := b.number + 1, accumulatedReasoning := b.accumulatedReasoning + delta),
           r.events + [ReasoningTextDelta(b.number, delta, b.reasoningItemID, b.reasoningOutputIndex)])
  }

  function OnProviderEvent(a: Assembly, ev: ProviderEvent): Step {
    match ev
    case ReasoningDelta(delta) => OnReasoningDelta(a, delta)
    case ReasoningDone => OnReasoningDone(a)
    case TextDelta(delta) => OnTextDelta(a, delta)
    case TextDone(delta) => OnTextDone(a, delta)
    case ToolCallDelta(index, callID, name, delta) => OnToolCallDelta(a, index, callID, name, delta)
    case ToolCallDone(index, _, _, delta, item) => OnToolCallDone(a, index, delta, item)
    case Done(_, _) => Step(a, [])
    case Failure(_) => Step(a, [])
  }

  class StreamState {
    var seqNumber: nat
    var itemID: ItemId
    var outputIndex: int
    var textStarted: bool
    var reasoningItemID: ItemId
    var reasoningOutputIndex: int
    var reasoningStarted: bool
    var reasoningDone: bool
    var accumulatedReasoning: string
    var toolCallItems: map<int, ToolCallItem>
    var issued: nat

    function Now(): Assembly
      reads this
    {
      Assembly(seqNumber, itemID, outputIndex, textStarted, reasoningItemID, reasoningOutputIndex,
               reasoningStarted, reasoningDone, accumulatedReasoning, toolCallItems, issued)
    }

    constructor ()
      ensures Now() == Assembly(0, 0, 0, false, 0, 0, false, false, "", map[], 0)
    {
      seqNumber, itemID, outputIndex, textStarted := 0, 0, 0, false;
      reasoningItemID, reasoningOutputIndex, reasoningStarted, reasoningDone := 0, 0, false, false;
      accumulatedReasoning, toolCallItems, issued := "", map[], 0;
    }

    method NextSeq() returns (n: nat)
      modifies `seqNumber
      ensures n == old(seqNumber) && seqNumber == n + 1
    {
      n := seqNumber;
      seqNumber := seqNumber + 1;
    }

    method NewItemID() returns (id: ItemId)
      modifies `issued
      ensures id == issued == old(issued) + 1
    {
      issued := issued + 1;
      id := issued;
    }

    method MapTextDelta(delta: string) returns (events: seq<StreamEvent>)
      modifies this
      ensures Step(Now(), events) == OnTextDelta(old(Now()), delta)
    {
      if delta == "" && !textStarted {
        textStarted := true;
        return [];
      }
      if delta == "" {
        return [];
      }
      events := [];
      if reasoningStarted && !reasoningDone {
        events := MapReasoningDone();
      }
      textStarted := true;
      var n := NextSeq();
      events := events + [OutputTextDelta(n, delta, itemID, outputIndex)];
    }

    method MapTextDone(delta: string) returns (events: seq<StreamEvent>)
      modifies this
      ensures Step(Now(), events) == OnTextDone(old(Now()), delta)
    {
      if !textStarted {
        return [];
      }
      var n := NextSeq();
      events := [OutputTextDone(n, delta, itemID, outputIndex)];
    }

    method MapToolCallDelta(index: int, callID: string, name: string, delta: string) returns (events: seq<StreamEvent>)
      modifies this
      ensures Step(Now(), events) == OnToolCallDelta(old(Now()), index, callID, name, delta)
    {
      events := [];
      if index !in toolCallItems {
        outputIndex := outputIndex + 1;
        var id := NewItemID();
        toolCallItems := toolCallItems[index := ToolCallItem(id, outputIndex)];
        var n := NextSeq();
        events := [OutputItemAdded(n, FunctionCall(id, ItemInProgress, ToolCall(callID, name, "")), outputIndex)];
      }
      var item := toolCallItems[index];
      if delta != "" {
        var n := NextSeq();
        events := events + [ArgumentsDelta(n, delta, item.itemID, item.outputIndex)];
      }
    }

    method MapToolCallDone(index: int, delta: string, item: Option<Item>) returns (events: seq<StreamEvent>)
      modifies this
      ensures Step(Now(), events) == OnToolCallDone(old(Now()), index, delta, item)
    {
      if index !in toolCallItems {
        return [];
      }
      var known := toolCallItems[index];
      var n := NextSeq();
      events := [ArgumentsDone(n, delta, known.itemID, known.outputIndex)];
      if item.Some? {
        n := NextSeq();
        events := events + [OutputItemDone(n, WithID(item.value, known.itemID), known.outputIndex)];
      }
    }

    method MapReasoningDelta(delta: string) returns (events: seq<StreamEvent>)
      modifies this
      ensures Step(Now(), events) == OnReasoningDelta(old(Now()), delta)
    {
      if delta == "" {
        return [];
      }
      events := [];
      if !reasoningStarted {
        reasoningItemID := NewItemID();
        reasoningOutputIndex := outputIndex;
        reasoningStarted := true;
        var n := NextSeq();
        events := [OutputItemAdded(n, Reasoning(reasoningItemID, ItemInProgress, ""), reasoningOutputIndex)];
      }
      accumulatedReasoning := accumulatedReasoning + delta;
      var n := NextSeq();
      events := events + [ReasoningTextDelta(n, delta, reasoningItemID, reasoningOutputIndex)];
    }

    method MapReasoningDone() returns (events: seq<StreamEvent>)
      modifies this
      ensures Step(Now(), events) == OnReasoningDone(old(Now()))
    {
      if !reasoningStarted || reasoningDone {
        return [];
      }
      reasoningDone := true;
      var n := NextSeq();
      var m := NextSeq();
      events := [ReasoningTextDone(n, reasoningItemID, reasoningOutputIndex),
                 OutputItemDone(m, Reasoning(reasoningItemID, ItemCompleted, accumulatedReasoning), reasoningOutputIndex)];
      outputIndex := outputIndex + 1;
    }

    method MapProviderEvent(ev: ProviderEvent) returns (events: seq<StreamEvent>)
      modifies this
      ensures Step(Now(), events) == OnProviderEvent(old(Now()), ev)
    {
      match ev
      case ReasoningDelta(delta) => events := MapReasoningDelta(delta);
      case ReasoningDone => events := MapReasoningDone();
      case TextDelta(delta) => events := MapTextDelta(delta);
      case TextDone(delta) => events := MapTextDone(delta);
      case ToolCallDelta(index, callID, name, delta) => events := MapToolCallDelta(index, callID, name, delta);
      case ToolCallDone(index, _, _, delta, item) => events := MapToolCallDone(index, delta, item);
      case Done(_, _) => events := [];
      case Failure(_) => events := [];
    }
  }
}
