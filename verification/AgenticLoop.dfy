/** Tool results and the allowed_tools filter (pkg/tools/executor.go, pkg/tools/filter.go). */
module Tools {
  import opened Api

  datatype ToolResult = ToolResult(callID: string, output: string, isError: bool)

  /** How often an id is called, and how often it is answered. */
  function Calls(calls: seq<ToolCall>, id: string): nat {
    if calls == [] then 0
    else Calls(calls[..|calls| - 1], id) + (if calls[|calls| - 1].id == id then 1 else 0)
  }

  function Answers(results: seq<ToolResult>, id: string): nat {
    if results == [] then 0
    else Answers(results[..|results| - 1], id) + (if results[|results| - 1].callID == id then 1 else 0)
  }

  lemma {:induction false} AnswersConcat(a: seq<ToolResult>, b: seq<ToolResult>, id: string)
    ensures Answers(a + b, id) == Answers(a, id) + Answers(b, id)
    decreases |b|
  {
    if b == [] {
      assert a + b == a;
    } else {
      assert (a + b)[..|a + b| - 1] == a + b[..|b| - 1];
      AnswersConcat(a, b[..|b| - 1], id);
    }
  }

  lemma {:induction false} CallsConcat(a: seq<ToolCall>, b: seq<ToolCall>, id: string)
    ensures Calls(a + b, id) == Calls(a, id) + Calls(b, id)
    decreases |b|
  {
    if b == [] {
      assert a + b == a;
    } else {
      assert (a + b)[..|a + b| - 1] == a + b[..|b| - 1];
      CallsConcat(a, b[..|b| - 1], id);
    }
  }

  function NotAllowed(call: ToolCall): ToolResult {
    ToolResult(call.id, "tool " + call.name + " is not in the allowed_tools list", true)
  }

  /** An empty list allows every tool. */
  predicate IsAllowed(call: ToolCall, allowedTools: seq<string>) {
    allowedTools == [] || call.name in allowedTools
  }

  /** The calls that are allowed, in their order. */
  function Permitted(calls: seq<ToolCall>, allowedTools: seq<string>): seq<ToolCall> {
    if calls == [] then []
    else
      var (init, last) := (calls[..|calls| - 1], calls[|calls| - 1]);
      Permitted(init, allowedTools) + (if IsAllowed(last, allowedTools) then [last] else [])
  }

  /** The answers to the calls that are not, in their order. */
  function Refusals(calls: seq<ToolCall>, allowedTools: seq<string>): seq<ToolResult> {
    if calls == [] then []
    else
      var (init, last) := (calls[..|calls| - 1], calls[|calls| - 1]);
      Refusals(init, allowedTools) + (if IsAllowed(last, allowedTools) then [] else [NotAllowed(last)])
  }

  /** The filter loses no call and repeats none: each id is permitted or refused as
      often as it was called. */
  lemma {:induction false} FilterPartitions(calls: seq<ToolCall>, allowedTools: seq<string>, id: string)
    ensures Calls(Permitted(calls, allowedTools), id) + Answers(Refusals(calls, allowedTools), id) == Calls(calls, id)
  {
    if calls != [] {
      var (init, last) := (calls[..|calls| - 1], calls[|calls| - 1]);
      FilterPartitions(init, allowedTools, id);
      if IsAllowed(last, allowedTools) {
        CallsConcat(Permitted(init, allowedTools), [last], id);
        assert [last][..0] == [] && Refusals(calls, allowedTools) == Refusals(init, allowedTools);
      } else {
        AnswersConcat(Refusals(init, allowedTools), [NotAllowed(last)], id);
        assert [NotAllowed(last)][..0] == [] && Permitted(calls, allowedTools) == Permitted(init, allowedTools);
      }
    }
  }

  /** Just the listed tools pass, and what is refused is an error. */
  lemma {:induction false} PermittedAreListed(calls: seq<ToolCall>, allowedTools: seq<string>, call: ToolCall)
    ensures call in Permitted(calls, allowedTools) <==> call in calls && IsAllowed(call, allowedTools)
    ensures forall r | r in Refusals(calls, allowedTools) :: r.isError
  {
    if calls != [] {
      var (init, last) := (calls[..|calls| - 1], calls[|calls| - 1]);
      PermittedAreListed(init, allowedTools, call);
      assert calls == init + [last];
    }
  }

  lemma {:induction false} AllPermitted(calls: seq<ToolCall>)
    ensures Permitted(calls, []) == calls && Refusals(calls, []) == []
  {
    if calls != [] {
      AllPermitted(calls[..|calls| - 1]);
    }
  }

  method FilterAllowedTools(calls: seq<ToolCall>, allowedTools: seq<string>)
    returns (permitted: seq<ToolCall>, rejected: seq<ToolResult>)
    ensures permitted == Permitted(calls, allowedTools)
    ensures rejected == Refusals(calls, allowedTools)
  {
    if |allowedTools| == 0 {
      AllPermitted(calls);
      return calls, [];
    }
    var lookup: set<string> := {};
    for i := 0 to |allowedTools|
      invariant forall name :: name in lookup <==> name in allowedTools[..i]
    {
      lookup := lookup + {allowedTools[i]};
    }
    assert allowedTools[..|allowedTools|] == allowedTools;
    permitted, rejected := [], [];
    for i := 0 to |calls|
      invariant permitted == Permitted(calls[..i], allowedTools)
      invariant rejected == Refusals(calls[..i], allowedTools)
    {
      assert calls[..i + 1][..i] == calls[..i];
      if calls[i].name in lookup {
        permitted := permitted + [calls[i]];
      } else {
        rejected := rejected + [NotAllowed(calls[i])];
      }
    }
    assert calls[..|calls|] == calls;
  }
}

/** The agentic loop for non-streaming requests (pkg/engine/loop.go). */
module AgenticLoop {
  import opened Wrappers
  import opened ResponseState
  import opened Tools
  import Api
  type Item = Api.Item
  type ToolCall = Api.ToolCall
  type ProviderMessage = Api.ProviderMessage
  type Usage = Api.Usage

  datatype Reply =
    | Reply(items: seq<Item>, usage: Usage, status: Status)
    | Fault(error: string)

  datatype Execution =
    | Returned(result: ToolResult)
    | Raised(error: string)

  /** What the loop meets outside: the provider's reply in each turn, whether the
      context is cancelled where the loop looks at it, which tools have an executor and
      what the executor does with the i-th call of a turn, and the item ids drawn. */
  datatype World = World(
    reply: nat -> Reply,
    cancelledBefore: nat -> bool,
    cancelledAfter: nat -> bool,
    cancelledAtTool: (nat, nat) -> bool,
    handled: string -> bool,
    execute: (nat, nat, ToolCall) -> Execution,
    newItemID: (nat, nat) -> Api.ItemId)

  datatype Request = Request(
    maxToolCalls: Option<int>, toolChoice: Option<string>, parallelToolCalls: Option<bool>, allowedTools: seq<string>)

  datatype Outcome =
    | Written(status: Status, output: seq<Item>, usage: Usage, incompleteReason: Option<string>)
    | Aborted(error: string)

  class ProviderRequest {
    var messages: seq<ProviderMessage>
  }

  // ----- Small steps -----

  /** The server's limit, ten by default, lowered by a positive request limit. */
  function MaxTurns(maxAgenticTurns: int, req: Request): (m: nat)
    ensures m > 0
    ensures m <= (if maxAgenticTurns > 0 then maxAgenticTurns else 10)
    ensures req.maxToolCalls.Some? && req.maxToolCalls.value > 0 ==> m <= req.maxToolCalls.value
    ensures m == (if maxAgenticTurns > 0 then maxAgenticTurns else 10) || req.maxToolCalls == Some(m)
  {
    var limit := if maxAgenticTurns <= 0 then 10 else maxAgenticTurns;
    if req.maxToolCalls.Some? && 0 < req.maxToolCalls.value < limit then req.maxToolCalls.value else limit
  }

  function AddUsage(a: Usage, b: Usage): Usage {
    Api.Usage(a.inputTokens + b.inputTokens, a.outputTokens + b.outputTokens, a.totalTokens + b.totalTokens)
  }

  function CallsOf(items: seq<Item>): seq<ToolCall> {
    if items == [] then []
    else
      var (init, last) := (items[..|items| - 1], items[|items| - 1]);
      CallsOf(init) + (if last.FunctionCall? then [last.call] else [])
  }

  /** How often an id is called, and answered, among the items. */
  function Called(items: seq<Item>, id: string): nat {
    Calls(CallsOf(items), id)
  }

  function Answered(items: seq<Item>, id: string): nat {
    if items == [] then 0
    else
      var (init, last) := (items[..|items| - 1], items[|items| - 1]);
      Answered(init, id) + (if last.FunctionCallOutput? && last.callID == id then 1 else 0)
  }

  lemma {:induction false} CallsOfConcat(a: seq<Item>, b: seq<Item>)
    ensures CallsOf(a + b) == CallsOf(a) + CallsOf(b)
    decreases |b|
  {
    if b == [] {
      assert a + b == a;
    } else {
      var init := b[..|b| - 1];
      assert (a + b)[..|a + b| - 1] == a + init;
      CallsOfConcat(a, init);
    }
  }

  lemma {:induction false} AnsweredConcat(a: seq<Item>, b: seq<Item>, id: string)
    ensures Answered(a + b, id) == Answered(a, id) + Answered(b, id)
    decreases |b|
  {
    if b == [] {
      assert a + b == a;
    } else {
      var init := b[..|b| - 1];
      assert (a + b)[..|a + b| - 1] == a + init;
      AnsweredConcat(a, init, id);
    }
  }

  lemma CalledConcat(a: seq<Item>, b: seq<Item>, id: string)
    ensures Called(a + b, id) == Called(a, id) + Called(b, id)
  {
    CallsOfConcat(a, b);
    CallsConcat(CallsOf(a), CallsOf(b), id);
  }

  method ExtractToolCalls(items: seq<Item>) returns (calls: seq<ToolCall>)
    ensures calls == CallsOf(items)
  {
    calls := [];
    for i := 0 to |items|
      invariant calls == CallsOf(items[..i])
    {
      assert items[..i + 1][..i] == items[..i];
      if items[i].FunctionCall? {
        calls := calls + [items[i].call];
      }
    }
    assert items[..|items|] == items;
  }

  predicate AllHandled(w: World, calls: seq<ToolCall>) {
    forall i | 0 <= i < |calls| :: w.handled(calls[i].name)
  }

  method HasUnhandledToolCalls(w: World, calls: seq<ToolCall>) returns (found: bool)
    ensures found <==> !AllHandled(w, calls)
  {
    for i := 0 to |calls|
      invariant AllHandled(w, calls[..i])
    {
      if !w.handled(calls[i].name) { return true; }
    }
    return false;
  }

  // ----- Executing tools -----

  function Settled(w: World, turn: nat, i: nat, call: ToolCall): ToolResult {
    if !w.handled(call.name) then ToolResult(call.id, "no executor found for tool " + call.name, true)
    else
      match w.execute(turn, i, call)
      case Raised(error) => ToolResult(call.id, error, true)
      case Returned(result) => result
  }

  function Executed(w: World, parallel: bool, turn: nat, calls: seq<ToolCall>): seq<ToolResult> {
    seq(|calls|, i requires 0 <= i < |calls| =>
      if !parallel && w.cancelledAtTool(turn, i) then ToolResult(calls[i].id, "context cancelled", true)
      else Settled(w, turn, i, calls[i]))
  }

  /** A call's result: what its tool gave, or why it gave nothing. */
  predicate IsResult(w: World, turn: nat, i: nat, call: ToolCall, r: ToolResult) {
    && (!w.handled(call.name) ==> r == ToolResult(call.id, "no executor found for tool " + call.name, true))
    && (w.handled(call.name) && w.execute(turn, i, call).Raised? ==> r == ToolResult(call.id, w.execute(turn, i, call).error, true))
    && (w.handled(call.name) && w.execute(turn, i, call).Returned? ==> r == w.execute(turn, i, call).result)
  }

  predicate Slot(i: nat) { true }

  /** Whatever call finishes next, each writes its own slot: the array is the same for
      every completion order. */
  method ExecuteToolsConcurrently(w: World, turn: nat, calls: seq<ToolCall>) returns (results: seq<ToolResult>)
    ensures results == Executed(w, true, turn, calls)
    ensures forall i | 0 <= i < |calls| :: IsResult(w, turn, i, calls[i], results[i])
  {
    if |calls| == 0 { return []; }
    var slots := new ToolResult[|calls|];
    var running := set i: nat {:trigger Slot(i)} | i < |calls| && Slot(i);
    while running != {}
      invariant forall i: nat | i in running :: i < |calls|
      invariant forall i: nat | i < |calls| && i !in running :: slots[i] == Settled(w, turn, i, calls[i])
      decreases |running|
    {
      var idx: nat :| idx in running;
      slots[idx] := Settled(w, turn, idx, calls[idx]);
      running := running - {idx};
    }
    results := slots[..];
  }

  method ExecuteToolsSequentially(w: World, turn: nat, calls: seq<ToolCall>) returns (results: seq<ToolResult>)
    ensures results == Executed(w, false, turn, calls)
    ensures forall i | 0 <= i < |calls| && !w.cancelledAtTool(turn, i) :: IsResult(w, turn, i, calls[i], results[i])
    ensures forall i | 0 <= i < |calls| && w.cancelledAtTool(turn, i) ::
      results[i] == ToolResult(calls[i].id, "context cancelled", true)
  {
    if |calls| == 0 { return []; }
    var slots := new ToolResult[|calls|];
    for i := 0 to |calls|
      invariant slots[..i] == Executed(w, false, turn, calls)[..i]
    {
      if w.cancelledAtTool(turn, i) {
        slots[i] := ToolResult(calls[i].id, "context cancelled", true);
      } else {
        slots[i] := Settled(w, turn, i, calls[i]);
      }
    }
    results := slots[..];
  }

  /** Both executors give the same results exactly when cancellation makes no difference. */
  lemma ExecutorsAgree(w: World, turn: nat, calls: seq<ToolCall>)
    ensures Executed(w, true, turn, calls) == Executed(w, false, turn, calls)
       <==> forall i | 0 <= i < |calls| && w.cancelledAtTool(turn, i) ::
              Settled(w, turn, i, calls[i]) == ToolResult(calls[i].id, "context cancelled", true)
  {
    var (together, oneByOne) := (Executed(w, true, turn, calls), Executed(w, false, turn, calls));
    if together == oneByOne {
      forall i | 0 <= i < |calls| && w.cancelledAtTool(turn, i)
        ensures Settled(w, turn, i, calls[i]) == ToolResult(calls[i].id, "context cancelled", true)
      {
        assert together[i] == oneByOne[i];
      }
    }
  }

  // ----- A run, turn by turn -----

  predicate Parallel(req: Request) {
    req.parallelToolCalls.GetOr(true)
  }

  predicate ForbidsTools(req: Request) {
    req.toolChoice == Some("none")
  }

  /** The items of turn t's reply, with an id drawn for those that have none (0). */
  function ItemsAt(w: World, t: nat): seq<Item> {
    match w.reply(t)
    case Fault(_) => []
    case Reply(items, _, _) =>
      seq(|items|, i requires 0 <= i < |items| =>
        if items[i].id == 0 then items[i].(id := w.newItemID(t, i)) else items[i])
  }

  function CallsAt(w: World, t: nat): seq<ToolCall> {
    CallsOf(ItemsAt(w, t))
  }

  function ResultsAt(w: World, req: Request, t: nat): seq<ToolResult> {
    Executed(w, Parallel(req), t, Permitted(CallsAt(w, t), req.allowedTools))
    + Refusals(CallsAt(w, t), req.allowedTools)
  }

  function ResultItem(w: World, t: nat, from: nat, i: nat, r: ToolResult): Item {
    Api.FunctionCallOutput(w.newItemID(t, from + i), Api.ItemCompleted, r.callID, r.output)
  }

  function ResultItems(w: World, t: nat, results: seq<ToolResult>): seq<Item> {
    seq(|results|, i requires 0 <= i < |results| => ResultItem(w, t, |ItemsAt(w, t)|, i, results[i]))
  }

  function ToolMessage(r: ToolResult): ProviderMessage {
    Api.ProviderMessage(Api.Tool, r.output, [], r.callID)
  }

  function ToolMessages(results: seq<ToolResult>): seq<ProviderMessage> {
    seq(|results|, i requires 0 <= i < |results| => ToolMessage(results[i]))
  }

  function AssistantToolCallMessage(calls: seq<ToolCall>): ProviderMessage {
    Api.ProviderMessage(Api.Assistant, "", calls, "")
  }

  /** Turn t ends with tool results for the provider, and another turn follows. */
  predicate GoesOn(w: World, req: Request, t: nat) {
    && !w.cancelledBefore(t) && w.reply(t).Reply?
    && CallsAt(w, t) != [] && !ForbidsTools(req) && AllHandled(w, CallsAt(w, t))
  }

  predicate GoesOnUntil(w: World, req: Request, n: nat) {
    forall t: nat | t < n :: GoesOn(w, req, t)
  }

  /** A turn that goes on: the reply's items, the results of its calls and their items. */
  datatype Turn = Turn(items: seq<Item>, results: seq<ToolResult>, answers: seq<Item>)

  function TurnAt(w: World, req: Request, t: nat): Turn {
    var results := ResultsAt(w, req, t);
    Turn(ItemsAt(w, t), results, ResultItems(w, t, results))
  }

  /** The first n turns of a run. */
  function Turns(w: World, req: Request, n: nat): (turns: seq<Turn>)
    ensures |turns| == n
  {
    if n == 0 then [] else Turns(w, req, n - 1) + [TurnAt(w, req, n - 1)]
  }

  function OutputOf(turns: seq<Turn>): seq<Item> {
    if turns == [] then []
    else
      var last := turns[|turns| - 1];
      OutputOf(turns[..|turns| - 1]) + last.items + last.answers
  }

  function MessagesOf(turns: seq<Turn>): seq<ProviderMessage> {
    if turns == [] then []
    else
      var last := turns[|turns| - 1];
      MessagesOf(turns[..|turns| - 1]) + ([AssistantToolCallMessage(CallsOf(last.items))] + ToolMessages(last.results))
  }

  function UsageOf(w: World, n: nat): Usage {
    if n == 0 then Api.Usage(0, 0, 0)
    else if w.reply(n - 1).Fault? then UsageOf(w, n - 1)
    else AddUsage(UsageOf(w, n - 1), w.reply(n - 1).usage)
  }

  function Respond(status: Status, output: seq<Item>, usage: Usage): Outcome {
    Written(status, output, usage, if status == Incomplete then Some("max_output_tokens") else None)
  }

  /** What the loop gives when turn n is the first that does not go on. */
  function Verdict(w: World, req: Request, maxTurns: nat, n: nat): Outcome {
    var output := OutputOf(Turns(w, req, n));
    if n == maxTurns then Respond(Incomplete, output, UsageOf(w, n))
    else if w.cancelledBefore(n) then Respond(Cancelled, output, UsageOf(w, n))
    else if w.reply(n).Fault? then
      if w.cancelledAfter(n) then Respond(Cancelled, output, UsageOf(w, n))
      else Aborted(w.reply(n).error)
    else Respond(FinalStatus(w, req, n), output + ItemsAt(w, n), UsageOf(w, n + 1))
  }

  function FinalStatus(w: World, req: Request, n: nat): Status {
    if CallsAt(w, n) == [] then if w.reply(n).Reply? then w.reply(n).status else Unset
    else if ForbidsTools(req) then Completed
    else RequiresAction
  }

  // ----- What every run keeps -----

  ghost predicate Echoes(w: World) {
    forall t: nat, i: nat, call: ToolCall ::
      w.execute(t, i, call).Returned? ==> w.execute(t, i, call).result.callID == call.id
  }

  lemma ResultEchoes(w: World, parallel: bool, t: nat, calls: seq<ToolCall>, i: nat)
    requires Echoes(w) && i < |calls|
    ensures Executed(w, parallel, t, calls)[i].callID == calls[i].id
  {
    if w.execute(t, i, calls[i]).Returned? {
      assert w.execute(t, i, calls[i]).result.callID == calls[i].id;
    }
    assert Settled(w, t, i, calls[i]).callID == calls[i].id;
  }

  /** Executing calls answers each of them once. */
  lemma {:induction false} ExecutedEcho(w: World, parallel: bool, t: nat, calls: seq<ToolCall>, n: nat, id: string)
    requires Echoes(w) && n <= |calls|
    ensures Answers(Executed(w, parallel, t, calls)[..n], id) == Calls(calls[..n], id)
  {
    if n > 0 {
      ExecutedEcho(w, parallel, t, calls, n - 1, id);
      var results := Executed(w, parallel, t, calls);
      assert results[..n][..n - 1] == results[..n - 1] && calls[..n][..n - 1] == calls[..n - 1];
      ResultEchoes(w, parallel, t, calls, n - 1);
    }
  }

  lemma ResultsEcho(w: World, req: Request, t: nat, id: string)
    requires Echoes(w)
    ensures Answers(ResultsAt(w, req, t), id) == Called(ItemsAt(w, t), id)
  {
    var calls := CallsAt(w, t);
    var allowed := Permitted(calls, req.allowedTools);
    var executed := Executed(w, Parallel(req), t, allowed);
    FilterPartitions(calls, req.allowedTools, id);
    ExecutedEcho(w, Parallel(req), t, allowed, |allowed|, id);
    assert executed[..|allowed|] == executed && allowed[..|allowed|] == allowed;
    AnswersConcat(executed, Refusals(calls, req.allowedTools), id);
  }

  lemma {:induction false} ItemsOfResults(w: World, t: nat, results: seq<ToolResult>, id: string)
    ensures Answered(ResultItems(w, t, results), id) == Answers(results, id)
    ensures CallsOf(ResultItems(w, t, results)) == []
  {
    if results != [] {
      var init := results[..|results| - 1];
      ItemsOfResults(w, t, init, id);
      var items := ResultItems(w, t, results);
      assert items[..|items| - 1] == ResultItems(w, t, init);
    }
  }

  /** Each call of the turn has one result, and each result one item. */
  ghost predicate AnswersItsCalls(turn: Turn) {
    && CallsOf(turn.answers) == []
    && forall id :: Answers(turn.results, id) == Answered(turn.answers, id) == Called(turn.items, id)
  }

  lemma EachTurnAnswers(w: World, req: Request, t: nat)
    requires Echoes(w)
    ensures AnswersItsCalls(TurnAt(w, req, t))
  {
    var turn := TurnAt(w, req, t);
    ItemsOfResults(w, t, turn.results, "");
    forall id
      ensures Answers(turn.results, id) == Answered(turn.answers, id) == Called(turn.items, id)
    {
      ResultsEcho(w, req, t, id);
      ItemsOfResults(w, t, turn.results, id);
    }
  }

  lemma {:induction false} TurnsAnswer(w: World, req: Request, n: nat)
    requires Echoes(w)
    ensures forall k | 0 <= k < n :: AnswersItsCalls(Turns(w, req, n)[k])
  {
    forall k: nat | k < n
      ensures AnswersItsCalls(Turns(w, req, n)[k])
    {
      TurnsAt(w, req, n, k);
      EachTurnAnswers(w, req, k);
    }
  }

  lemma {:induction false} TurnsAt(w: World, req: Request, n: nat, k: nat)
    requires k < n
    ensures Turns(w, req, n)[k] == TurnAt(w, req, k)
  {
    hide TurnAt;
    if k < n - 1 {
      TurnsAt(w, req, n - 1, k);
    }
  }

  /** How often the provider itself answered an id in these turns. */
  function SelfAnswered(turns: seq<Turn>, id: string): nat {
    if turns == [] then 0
    else SelfAnswered(turns[..|turns| - 1], id) + Answered(turns[|turns| - 1].items, id)
  }

  lemma {:induction false} OutputBalanced(turns: seq<Turn>, id: string)
    requires forall k | 0 <= k < |turns| :: AnswersItsCalls(turns[k])
    ensures Answered(OutputOf(turns), id) == Called(OutputOf(turns), id) + SelfAnswered(turns, id)
  {
    if turns != [] {
      var (init, last) := (turns[..|turns| - 1], turns[|turns| - 1]);
      OutputBalanced(init, id);
      AnsweredConcat(OutputOf(init) + last.items, last.answers, id);
      AnsweredConcat(OutputOf(init), last.items, id);
      CalledConcat(OutputOf(init) + last.items, last.answers, id);
      CalledConcat(OutputOf(init), last.items, id);
      assert AnswersItsCalls(last);
    }
  }

  /** How many replies a run asks for that stops at turn n. */
  function Asked(w: World, maxTurns: nat, n: nat): nat {
    if n == maxTurns || w.cancelledBefore(n) then n else n + 1
  }

  /** The items of the turn that the run stops at, if it still asks for a reply. */
  function LastItems(w: World, maxTurns: nat, n: nat): seq<Item> {
    if n == maxTurns || w.cancelledBefore(n) then [] else ItemsAt(w, n)
  }

  lemma {:induction false} VerdictOutput(w: World, req: Request, maxTurns: nat, n: nat)
    requires Verdict(w, req, maxTurns, n).Written?
    ensures Verdict(w, req, maxTurns, n).output == OutputOf(Turns(w, req, n)) + LastItems(w, maxTurns, n)
  {
    var before := OutputOf(Turns(w, req, n));
    assert before + [] == before;
    if w.reply(n).Fault? {
      assert ItemsAt(w, n) == [];
    }
  }

  lemma {:induction false} VerdictUsage(w: World, req: Request, maxTurns: nat, n: nat)
    requires Verdict(w, req, maxTurns, n).Written?
    ensures Verdict(w, req, maxTurns, n).usage == UsageOf(w, Asked(w, maxTurns, n))
  {
  }

  lemma {:induction false} VerdictStatus(w: World, req: Request, maxTurns: nat, n: nat)
    requires Verdict(w, req, maxTurns, n).Written? && CallsOf(LastItems(w, maxTurns, n)) != []
    ensures Verdict(w, req, maxTurns, n).status == (if ForbidsTools(req) then Completed else RequiresAction)
  {
    assert w.reply(n).Reply?;
  }

  /** Every function call in the output is answered exactly once, but for those of the
      last reply, which are open when the response says that the client must act, or
      when the request forbids tools and the provider calls one all the same. The usage
      is the sum over the replies. */
  lemma EveryCallAnsweredOnce(w: World, req: Request, maxTurns: nat, n: nat, id: string)
    requires Echoes(w)
    requires Verdict(w, req, maxTurns, n).Written?
    ensures var (out, last) := (Verdict(w, req, maxTurns, n), LastItems(w, maxTurns, n));
      && Answered(out.output, id) + Called(last, id)
         == Called(out.output, id) + SelfAnswered(Turns(w, req, n), id) + Answered(last, id)
      && (Called(last, id) > 0 ==> out.status == (if ForbidsTools(req) then Completed else RequiresAction))
      && out.usage == UsageOf(w, Asked(w, maxTurns, n))
  {
    VerdictOutput(w, req, maxTurns, n);
    VerdictUsage(w, req, maxTurns, n);
    if Called(LastItems(w, maxTurns, n), id) > 0 {
      VerdictStatus(w, req, maxTurns, n);
    }
    TurnsAnswer(w, req, n);
    OutputBalanced(Turns(w, req, n), id);
    AnsweredConcat(OutputOf(Turns(w, req, n)), LastItems(w, maxTurns, n), id);
    CalledConcat(OutputOf(Turns(w, req, n)), LastItems(w, maxTurns, n), id);
  }

  /** A run with this server limit stops at turn n. */
  ghost predicate StopsAt(w: World, maxAgenticTurns: int, req: Request, n: nat) {
    var maxTurns := MaxTurns(maxAgenticTurns, req);
    n <= maxTurns && GoesOnUntil(w, req, n) && (n < maxTurns ==> !GoesOn(w, req, n))
  }

  /** This run leaves a call of that id open and does not say that the client must act. */
  ghost predicate Forgets(w: World, maxAgenticTurns: int, req: Request, n: nat, id: string) {
    var maxTurns := MaxTurns(maxAgenticTurns, req);
    && Echoes(w) && StopsAt(w, maxAgenticTurns, req, n)
    && Verdict(w, req, maxTurns, n).Written? && Verdict(w, req, maxTurns, n).status != RequiresAction
    && Called(LastItems(w, maxTurns, n), id) > 0
  }

  const STUBBORN_CALL: ToolCall := Api.ToolCall("id", "name", "")

  const STUBBORN_ITEM: Item := Api.FunctionCall(1, Api.ItemCompleted, STUBBORN_CALL)

  /** A provider that calls a tool in every turn. */
  function Stubborn(): World {
    World(_ => Reply([STUBBORN_ITEM], Api.Usage(0, 0, 0), Completed), _ => false, _ => false, (_, _) => false,
          _ => true, (_, _, call: ToolCall) => Returned(ToolResult(call.id, "", false)), (_, _) => 1)
  }

  lemma {:induction false} StubbornCalls(t: nat)
    ensures ItemsAt(Stubborn(), t) == [STUBBORN_ITEM]
    ensures CallsOf([STUBBORN_ITEM]) == [STUBBORN_CALL]
    ensures Called([STUBBORN_ITEM], "id") == 1
  {
    var items := ItemsAt(Stubborn(), t);
    assert Stubborn().reply(t) == Reply([STUBBORN_ITEM], Api.Usage(0, 0, 0), Completed);
    assert |items| == 1 && items[0] == STUBBORN_ITEM;
    OneCallItem();
  }

  lemma {:induction false} OneCallItem()
    ensures CallsOf([STUBBORN_ITEM]) == [STUBBORN_CALL] && Calls([STUBBORN_CALL], "id") == 1
  {
    assert [STUBBORN_ITEM][..0] == [] && [STUBBORN_CALL][..0] == [];
    assert CallsOf([]) == [] && Calls([], "id") == 0;
  }

  lemma {:induction false} StubbornForgotten(maxAgenticTurns: int, req: Request)
    requires ForbidsTools(req)
    ensures Forgets(Stubborn(), maxAgenticTurns, req, 0, "id")
  {
    var (w, maxTurns) := (Stubborn(), MaxTurns(maxAgenticTurns, req));
    StubbornCalls(0);
    assert LastItems(w, maxTurns, 0) == [STUBBORN_ITEM];
    assert CallsAt(w, 0) == [STUBBORN_CALL];
    assert FinalStatus(w, req, 0) == Completed;
  }

  lemma {:induction false} NothingForgotten(w: World, maxAgenticTurns: int, req: Request, n: nat, id: string)
    requires !ForbidsTools(req)
    ensures !Forgets(w, maxAgenticTurns, req, n, id)
  {
    var maxTurns := MaxTurns(maxAgenticTurns, req);
    if Echoes(w) && Verdict(w, req, maxTurns, n).Written? {
      EveryCallAnsweredOnce(w, req, maxTurns, n, id);
    }
  }

  /** No run ever leaves a call open without telling the client to act, if and only if
      the request does not forbid tools. */
  lemma {:induction false} ForgetsExactlyWhen(req: Request)
    ensures (forall w, maxAgenticTurns, n, id :: !Forgets(w, maxAgenticTurns, req, n, id)) <==> !ForbidsTools(req)
  {
    if ForbidsTools(req) {
      StubbornForgotten(10, req);
    } else {
      forall w, maxAgenticTurns, n, id
        ensures !Forgets(w, maxAgenticTurns, req, n, id)
      {
        NothingForgotten(w, maxAgenticTurns, req, n, id);
      }
    }
  }

  /** The tool messages after the assistant message at i, up to the next assistant
      message, answer its calls and nothing else. */
  ghost predicate AnsweredUntil(ms: seq<ProviderMessage>, i: nat, j: nat) {
    && i < j <= |ms|
    && (j < |ms| ==> ms[j].role == Api.Assistant)
    && (forall k | i < k < j :: ms[k].role == Api.Tool)
    && (forall id :: Replies(ms[i + 1..j], id) == Calls(ms[i].toolCalls, id))
  }

  function Replies(ms: seq<ProviderMessage>, id: string): nat {
    if ms == [] then 0
    else Replies(ms[..|ms| - 1], id) + (if ms[|ms| - 1].toolCallID == id then 1 else 0)
  }

  lemma {:induction false} RepliesOfResults(results: seq<ToolResult>, id: string)
    ensures Replies(ToolMessages(results), id) == Answers(results, id)
  {
    if results != [] {
      var init := results[..|results| - 1];
      RepliesOfResults(init, id);
      assert ToolMessages(results)[..|results| - 1] == ToolMessages(init);
    }
  }

  lemma TurnAnswered(turn: Turn, before: seq<ProviderMessage>)
    requires AnswersItsCalls(turn)
    ensures var ms := before + ([AssistantToolCallMessage(CallsOf(turn.items))] + ToolMessages(turn.results));
      AnsweredUntil(ms, |before|, |ms|)
  {
    var ms := before + ([AssistantToolCallMessage(CallsOf(turn.items))] + ToolMessages(turn.results));
    assert ms[|before| + 1..|ms|] == ToolMessages(turn.results);
    forall id
      ensures Replies(ToolMessages(turn.results), id) == Calls(CallsOf(turn.items), id)
    {
      RepliesOfResults(turn.results, id);
    }
  }

  ghost predicate AnsweredAt(ms: seq<ProviderMessage>, i: nat) {
    exists j: nat :: AnsweredUntil(ms, i, j)
  }

  lemma AnsweredInLonger(ms: seq<ProviderMessage>, more: seq<ProviderMessage>, i: nat)
    requires AnsweredAt(ms, i)
    requires more != [] && more[0].role == Api.Assistant
    ensures AnsweredAt(ms + more, i)
  {
    var j: nat :| AnsweredUntil(ms, i, j);
    assert (ms + more)[i + 1..j] == ms[i + 1..j];
    assert AnsweredUntil(ms + more, i, j);
  }

  /** An assistant message with calls and then the tool messages that answer exactly
      these, over and over. */
  ghost predicate Alternates(ms: seq<ProviderMessage>) {
    && (ms != [] ==> ms[0].role == Api.Assistant)
    && (forall i: nat | i < |ms| :: ms[i].role == Api.Assistant || ms[i].role == Api.Tool)
    && (forall i: nat | i < |ms| && ms[i].role == Api.Assistant :: AnsweredAt(ms, i))
  }

  lemma {:induction false} ConversationAlternates(turns: seq<Turn>)
    requires forall k | 0 <= k < |turns| :: AnswersItsCalls(turns[k])
    ensures Alternates(MessagesOf(turns))
  {
    if turns != [] {
      var (init, last) := (turns[..|turns| - 1], turns[|turns| - 1]);
      ConversationAlternates(init);
      var before := MessagesOf(init);
      var more := [AssistantToolCallMessage(CallsOf(last.items))] + ToolMessages(last.results);
      var ms := before + more;
      TurnAnswered(last, before);
      forall i: nat | i < |ms| && ms[i].role == Api.Assistant
        ensures AnsweredAt(ms, i)
      {
        if i < |before| {
          AnsweredInLonger(before, more, i);
        }
      }
    }
  }

  /** Whatever the provider and the tools do, the messages that a run appends alternate. */
  lemma RunsAlternate(w: World, req: Request, n: nat)
    requires Echoes(w)
    ensures Alternates(MessagesOf(Turns(w, req, n)))
  {
    TurnsAnswer(w, req, n);
    ConversationAlternates(Turns(w, req, n));
  }

  // ----- The loop -----

  method AssignItemIDs(w: World, t: nat, items: seq<Item>) returns (named: seq<Item>)
    requires w.reply(t).Reply? && items == w.reply(t).items
    ensures named == ItemsAt(w, t)
  {
    named := items;
    for i := 0 to |items|
      invariant |named| == |items|
      invariant forall k | 0 <= k < i :: named[k] == ItemsAt(w, t)[k]
      invariant forall k | i <= k < |items| :: named[k] == items[k]
    {
      if named[i].id == 0 {
        named := named[i := named[i].(id := w.newItemID(t, i))];
      }
    }
  }

  method RunTools(w: World, req: Request, t: nat, calls: seq<ToolCall>) returns (results: seq<ToolResult>)
    requires calls == CallsAt(w, t)
    ensures results == ResultsAt(w, req, t)
  {
    var permitted, rejected := FilterAllowedTools(calls, req.allowedTools);
    if Parallel(req) {
      results := ExecuteToolsConcurrently(w, t, permitted);
    } else {
      results := ExecuteToolsSequentially(w, t, permitted);
    }
    results := results + rejected;
  }

  method BuildResultItems(w: World, t: nat, results: seq<ToolResult>) returns (items: seq<Item>)
    ensures items == ResultItems(w, t, results)
  {
    items := [];
    for i := 0 to |results|
      invariant items == ResultItems(w, t, results)[..i]
    {
      items := items + [ResultItem(w, t, |ItemsAt(w, t)|, i, results[i])];
    }
  }

  method AppendTurn(provReq: ProviderRequest, calls: seq<ToolCall>, results: seq<ToolResult>)
    modifies provReq
    ensures provReq.messages == old(provReq.messages) + ([AssistantToolCallMessage(calls)] + ToolMessages(results))
  {
    provReq.messages := provReq.messages + [AssistantToolCallMessage(calls)];
    ghost var before := provReq.messages;
    for i := 0 to |results|
      invariant provReq.messages == before + ToolMessages(results)[..i]
    {
      provReq.messages := provReq.messages + [ToolMessage(results[i])];
    }
  }

  lemma TurnAdded(w: World, req: Request, t: nat, before: seq<ProviderMessage>)
    ensures var turn := TurnAt(w, req, t);
      && OutputOf(Turns(w, req, t + 1)) == OutputOf(Turns(w, req, t)) + turn.items + turn.answers
      && before + MessagesOf(Turns(w, req, t + 1))
         == before + MessagesOf(Turns(w, req, t))
            + ([AssistantToolCallMessage(CallsOf(turn.items))] + ToolMessages(turn.results))
  {
    var turns := Turns(w, req, t + 1);
    assert turns[..t] == Turns(w, req, t) && turns[t] == TurnAt(w, req, t);
  }

  lemma GoOneMore(w: World, req: Request, n: nat)
    requires GoesOnUntil(w, req, n) && GoesOn(w, req, n)
    ensures GoesOnUntil(w, req, n + 1)
  {
  }

  /** Does the run end with these calls, and with what status? */
  method StatusAfter(w: World, req: Request, t: nat, status: Status, calls: seq<ToolCall>) returns (end: Option<Status>)
    requires !w.cancelledBefore(t) && w.reply(t).Reply? && w.reply(t).status == status && calls == CallsAt(w, t)
    ensures end == (if GoesOn(w, req, t) then None else Some(FinalStatus(w, req, t)))
  {
    if |calls| == 0 {
      return Some(status);
    }
    if req.toolChoice == Some("none") {
      return Some(Completed);
    }
    var unhandled := HasUnhandledToolCalls(w, calls);
    return if unhandled then Some(RequiresAction) else None;
  }

  /** Run the calls of the turn and tell the provider what came of them. */
  method AnswerCalls(w: World, req: Request, t: nat, calls: seq<ToolCall>, provReq: ProviderRequest)
    returns (resultItems: seq<Item>)
    requires calls == CallsAt(w, t)
    modifies provReq
    ensures resultItems == TurnAt(w, req, t).answers
    ensures provReq.messages
         == old(provReq.messages) + ([AssistantToolCallMessage(calls)] + ToolMessages(TurnAt(w, req, t).results))
  {
    var results := RunTools(w, req, t, calls);
    resultItems := BuildResultItems(w, t, results);
    AppendTurn(provReq, calls, results);
  }

  /** One turn of the loop: it ends the run, or leaves it one turn longer. */
  method RunTurn(w: World, req: Request, ghost maxTurns: nat, t: nat, output: seq<Item>, usage: Usage, provReq: ProviderRequest)
    returns (end: Option<Outcome>, longer: seq<Item>, total: Usage, called: bool)
    requires t < maxTurns && output == OutputOf(Turns(w, req, t)) && usage == UsageOf(w, t)
    modifies provReq
    ensures end == (if GoesOn(w, req, t) then None else Some(Verdict(w, req, maxTurns, t)))
    ensures called == !w.cancelledBefore(t)
    ensures end.Some? ==> provReq.messages == old(provReq.messages)
    ensures end.None? ==> longer == output + TurnAt(w, req, t).items + TurnAt(w, req, t).answers
    ensures end.None? ==> total == UsageOf(w, t + 1)
    ensures end.None? ==>
      (provReq.messages == old(provReq.messages)
        + ([AssistantToolCallMessage(CallsAt(w, t))] + ToolMessages(TurnAt(w, req, t).results)))
  {
    longer, total, called := output, usage, false;
    if w.cancelledBefore(t) {
      return Some(Respond(Cancelled, longer, total)), longer, total, called;
    }
    var reply := w.reply(t);
    called := true;
    if reply.Fault? {
      if w.cancelledAfter(t) {
        return Some(Respond(Cancelled, longer, total)), longer, total, called;
      }
      return Some(Aborted(reply.error)), longer, total, called;
    }
    total := AddUsage(usage, reply.usage);
    var items := AssignItemIDs(w, t, reply.items);
    longer := output + items;
    var calls := ExtractToolCalls(items);
    var status := StatusAfter(w, req, t, reply.status, calls);
    if status.Some? {
      return Some(Respond(status.value, longer, total)), longer, total, called;
    }
    var resultItems := AnswerCalls(w, req, t, calls, provReq);
    return None, longer + resultItems, total, called;
  }

  /** The loop stops at the first turn that does not go on, having asked the provider
      once in each turn; the outcome is that turn's verdict, and the conversation has
      grown by exactly the turns before it. */
  method RunAgenticLoop(w: World, maxAgenticTurns: int, req: Request, provReq: ProviderRequest)
    returns (out: Outcome, asked: nat, ghost last: nat)
    modifies provReq
    ensures var maxTurns := MaxTurns(maxAgenticTurns, req);
      && last <= maxTurns && GoesOnUntil(w, req, last)
      && (last < maxTurns ==> !GoesOn(w, req, last))
      && asked == Asked(w, maxTurns, last) <= maxTurns
      && out == Verdict(w, req, maxTurns, last)
    ensures provReq.messages == old(provReq.messages) + MessagesOf(Turns(w, req, last))
  {
    var maxTurns := MaxTurns(maxAgenticTurns, req);
    var allOutputItems: seq<Item> := [];
    var usage := Api.Usage(0, 0, 0);
    asked, last := 0, 0;
    var turn: nat := 0;
    while turn < maxTurns
      invariant turn <= maxTurns && asked == turn && last == turn
      invariant GoesOnUntil(w, req, turn)
      invariant allOutputItems == OutputOf(Turns(w, req, turn))
      invariant usage == UsageOf(w, turn)
      invariant provReq.messages == old(provReq.messages) + MessagesOf(Turns(w, req, turn))
    {
      var end, longer, total, called := RunTurn(w, req, maxTurns, turn, allOutputItems, usage, provReq);
      asked := if called then asked + 1 else asked;
      if end.Some? {
        return end.value, asked, last;
      }
      GoOneMore(w, req, turn);
      TurnAdded(w, req, turn, old(provReq.messages));
      allOutputItems, usage := longer, total;
      turn := turn + 1;
      last := turn;
    }
    out := Respond(Incomplete, allOutputItems, usage);
  }
}
