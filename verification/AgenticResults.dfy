/** What a run of the agentic loop puts into the response and the conversation, slot by
    slot, from the provider's replies and the tools alone (pkg/engine/loop.go). */
module AgenticResults {
  import opened Wrappers
  import opened ResponseState
  import opened Tools
  import opened AgenticLoop
  import opened Sequences
  import Api

  // ----- The order of calls -----

  ghost predicate Ascending(at: seq<nat>, size: nat) {
    (forall i | 0 <= i < |at| :: at[i] < size) && forall i, j | 0 <= i < j < |at| :: at[i] < at[j]
  }

  lemma {:induction false} AscendingMore(at: seq<nat>, n: nat)
    requires Ascending(at, n)
    ensures Ascending(at, n + 1) && Ascending(at + [n], n + 1)
    ensures forall k :: k in at + [n] <==> k in at || k == n
    ensures forall i | 0 <= i < |at| :: at[i] < n
    ensures n !in at
  {
  }

  lemma {:induction false} NoneAscend()
    ensures Ascending([], 0)
  {
  }

  /** `at` holds the places of the function call items. */
  ghost predicate Locates(items: seq<Item>, at: seq<nat>) {
    && |at| == |CallsOf(items)| && Ascending(at, |items|)
    && (forall i | 0 <= i < |at| :: items[at[i]].FunctionCall? && items[at[i]].call == CallsOf(items)[i])
    && (forall k | 0 <= k < |items| && items[k].FunctionCall? :: k in at)
  }

  lemma {:induction false} OneMoreCall(items: seq<Item>, n: nat)
    requires n == |items| - 1 && items[n].FunctionCall?
    ensures CallsOf(items) == CallsOf(items[..n]) + [items[n].call]
  {
  }

  lemma {:induction false} LocatesCall(items: seq<Item>, n: nat, at: seq<nat>)
    requires n == |items| - 1 && Locates(items[..n], at) && items[n].FunctionCall?
    ensures Locates(items, at + [n])
  {
    hide Ascending, CallsOf;
    AscendingMore(at, n);
    OneMoreCall(items, n);
    var more := at + [n];
    forall i | 0 <= i < |more|
      ensures items[more[i]].FunctionCall? && items[more[i]].call == CallsOf(items)[i]
    {
      if i < n && i < |at| {
        assert items[..n][at[i]] == items[at[i]];
      }
    }
  }

  lemma {:induction false} LocatesOther(items: seq<Item>, n: nat, at: seq<nat>)
    requires n == |items| - 1 && Locates(items[..n], at) && !items[n].FunctionCall?
    ensures Locates(items, at)
  {
    AscendingMore(at, n);
    assert CallsOf(items) == CallsOf(items[..n]);
    assert forall k | 0 <= k < n :: items[..n][k] == items[k];
  }

  /** The calls of some items are those of the function call items, in their order. */
  lemma {:induction false} CallsKeepOrder(items: seq<Item>) returns (at: seq<nat>)
    ensures |at| == |CallsOf(items)| && Ascending(at, |items|)
    ensures forall i | 0 <= i < |at| :: items[at[i]].FunctionCall? && items[at[i]].call == CallsOf(items)[i]
    ensures forall k | 0 <= k < |items| && items[k].FunctionCall? :: k in at
  {
    at := [];
    if items != [] {
      var n := |items| - 1;
      at := CallsKeepOrder(items[..n]);
      if items[n].FunctionCall? {
        LocatesCall(items, n, at);
        at := at + [n];
      } else {
        LocatesOther(items, n, at);
      }
    }
  }

  /** The calls that are not allowed, in their order. */
  function Refused(calls: seq<ToolCall>, allowedTools: seq<string>): seq<ToolCall> {
    if calls == [] then []
    else
      var (init, last) := (calls[..|calls| - 1], calls[|calls| - 1]);
      Refused(init, allowedTools) + (if allowedTools == [] || last.name in allowedTools then [] else [last])
  }

  lemma {:induction false} FilterOneMore(calls: seq<ToolCall>, allowedTools: seq<string>)
    requires calls != []
    ensures var (init, last) := (calls[..|calls| - 1], calls[|calls| - 1]);
      if allowedTools == [] || last.name in allowedTools
      then Permitted(calls, allowedTools) == Permitted(init, allowedTools) + [last]
           && Refused(calls, allowedTools) == Refused(init, allowedTools)
      else Permitted(calls, allowedTools) == Permitted(init, allowedTools)
           && Refused(calls, allowedTools) == Refused(init, allowedTools) + [last]
  {
  }

  lemma {:induction false} NothingFiltered(allowedTools: seq<string>)
    ensures Permitted([], allowedTools) == [] && Refused([], allowedTools) == []
  {
  }

  /** The filter sends each call one way, by its name, and keeps the order both ways. */
  lemma {:induction false} FilterKeepsOrder(calls: seq<ToolCall>, allowedTools: seq<string>)
    returns (kept: seq<nat>, refused: seq<nat>)
    ensures |kept| == |Permitted(calls, allowedTools)| && Ascending(kept, |calls|)
    ensures |refused| == |Refused(calls, allowedTools)| && Ascending(refused, |calls|)
    ensures forall i | 0 <= i < |kept| :: calls[kept[i]] == Permitted(calls, allowedTools)[i]
    ensures forall i | 0 <= i < |refused| :: calls[refused[i]] == Refused(calls, allowedTools)[i]
    ensures forall k | 0 <= k < |calls| ::
      if allowedTools == [] || calls[k].name in allowedTools then k in kept && k !in refused else k in refused && k !in kept
  {
    hide Ascending, Permitted, Refused;
    NoneAscend();
    NothingFiltered(allowedTools);
    kept, refused := [], [];
    if calls != [] {
      var n := |calls| - 1;
      FilterOneMore(calls, allowedTools);
      kept, refused := FilterKeepsOrder(calls[..n], allowedTools);
      AscendingMore(kept, n);
      AscendingMore(refused, n);
      if allowedTools == [] || calls[n].name in allowedTools {
        kept := kept + [n];
      } else {
        refused := refused + [n];
      }
    }
  }

  /** Each refused call is answered with an error that names its tool. */
  lemma {:induction false} RefusalsSay(calls: seq<ToolCall>, allowedTools: seq<string>)
    ensures |Refusals(calls, allowedTools)| == |Refused(calls, allowedTools)|
    ensures |Permitted(calls, allowedTools)| + |Refused(calls, allowedTools)| == |calls|
    ensures forall i | 0 <= i < |Refused(calls, allowedTools)| ::
      var call := Refused(calls, allowedTools)[i];
      Refusals(calls, allowedTools)[i] == ToolResult(call.id, "tool " + call.name + " is not in the allowed_tools list", true)
  {
    if calls != [] {
      RefusalsSay(calls[..|calls| - 1], allowedTools);
    }
  }

  // ----- One turn -----

  /** What turn t asks for, as the provider sent it. */
  function Sent(w: World, t: nat): seq<Item> {
    if w.reply(t).Reply? then w.reply(t).items else []
  }

  function Asks(w: World, t: nat): seq<ToolCall> {
    CallsOf(Sent(w, t))
  }

  lemma {:induction false} NamingKeepsCalls(items: seq<Item>, named: seq<Item>)
    requires |named| == |items|
    requires forall i | 0 <= i < |items| :: named[i] == items[i].(id := named[i].id)
    ensures CallsOf(named) == CallsOf(items)
  {
    if items != [] {
      var n := |items| - 1;
      NamingKeepsCalls(items[..n], named[..n]);
    }
  }

  lemma {:induction false} AsksAreCalls(w: World, t: nat)
    ensures CallsAt(w, t) == Asks(w, t) && |ItemsAt(w, t)| == |Sent(w, t)|
  {
    NamingKeepsCalls(Sent(w, t), ItemsAt(w, t));
  }

  /** What the call in slot i of a turn is answered with. */
  predicate AnsweredWith(w: World, req: Request, t: nat, i: nat, call: ToolCall, callID: string, text: string) {
    if req.parallelToolCalls == Some(false) && w.cancelledAtTool(t, i) then
      callID == call.id && text == "context cancelled"
    else
      match w.execute(t, i, call)
      case Raised(error) => callID == call.id && text == error
      case Returned(result) => callID == result.callID && text == result.output
  }

  /** The results of a turn that goes on: what the tools gave, in the order of the calls,
      and then the refusals. */
  lemma {:induction false} ResultsSay(w: World, req: Request, t: nat)
    requires GoesOn(w, req, t)
    ensures var (results, permitted, refused) :=
        (ResultsAt(w, req, t), Permitted(Asks(w, t), req.allowedTools), Refused(Asks(w, t), req.allowedTools));
      && |results| == |permitted| + |refused| == |Asks(w, t)|
      && (forall i | 0 <= i < |permitted| :: AnsweredWith(w, req, t, i, permitted[i], results[i].callID, results[i].output))
      && (forall i | 0 <= i < |refused| ::
            results[|permitted| + i]
            == ToolResult(refused[i].id, "tool " + refused[i].name + " is not in the allowed_tools list", true))
  {
    hide Permitted, Refused, Refusals, AnsweredWith, CallsAt, Asks, Settled;
    AsksAreCalls(w, t);
    RefusalsSay(Asks(w, t), req.allowedTools);
    var permitted := Permitted(Asks(w, t), req.allowedTools);
    forall i | 0 <= i < |permitted|
      ensures AnsweredWith(w, req, t, i, permitted[i], ResultsAt(w, req, t)[i].callID, ResultsAt(w, req, t)[i].output)
    {
      PermittedAreListed(Asks(w, t), req.allowedTools, permitted[i]);
      assert permitted[i] in Asks(w, t);
      SlotSays(w, req, t, permitted, i);
    }
  }

  lemma {:induction false} SlotSays(w: World, req: Request, t: nat, calls: seq<ToolCall>, i: nat)
    requires i < |calls| && w.handled(calls[i].name)
    ensures var r := Executed(w, Parallel(req), t, calls)[i]; AnsweredWith(w, req, t, i, calls[i], r.callID, r.output)
  {
    assert Parallel(req) <==> req.parallelToolCalls != Some(false);
    if !Parallel(req) && w.cancelledAtTool(t, i) {
      assert Executed(w, false, t, calls)[i] == ToolResult(calls[i].id, "context cancelled", true);
    } else {
      assert Executed(w, Parallel(req), t, calls)[i] == Settled(w, t, i, calls[i]);
    }
  }

  // ----- Every turn of a run -----

  /** Where turn t begins in the output and in the conversation. */
  function OutputStart(w: World, t: nat): nat {
    if t == 0 then 0 else OutputStart(w, t - 1) + |Sent(w, t - 1)| + |Asks(w, t - 1)|
  }

  function MessageStart(w: World, t: nat): nat {
    if t == 0 then 0 else MessageStart(w, t - 1) + 1 + |Asks(w, t - 1)|
  }

  /** The reply's items are in the output, with an id drawn for each that had none. */
  ghost predicate HoldsReply(w: World, t: nat, output: seq<Item>) {
    && OutputStart(w, t) + |Sent(w, t)| <= |output|
    && forall i | 0 <= i < |Sent(w, t)| ::
         output[OutputStart(w, t) + i] == Sent(w, t)[i].(id := if Sent(w, t)[i].id == 0 then w.newItemID(t, i) else Sent(w, t)[i].id)
  }

  /** So are the answers: a completed item for each, in the order of the calls, the
      refusals last. */
  ghost predicate HoldsAnswers(w: World, req: Request, t: nat, output: seq<Item>) {
    var (permitted, refused) := (Permitted(Asks(w, t), req.allowedTools), Refused(Asks(w, t), req.allowedTools));
    var start := OutputStart(w, t) + |Sent(w, t)|;
    && OutputStart(w, t + 1) <= |output| && |permitted| + |refused| == |Asks(w, t)|
    && (forall i | start <= i < OutputStart(w, t + 1) ::
          output[i].FunctionCallOutput? && output[i].status == Api.ItemCompleted
          && output[i].id == w.newItemID(t, i - OutputStart(w, t)))
    && (forall i | 0 <= i < |permitted| ::
          AnsweredWith(w, req, t, i, permitted[i], output[start + i].callID, output[start + i].result))
    && (forall i | 0 <= i < |refused| ::
          && output[start + |permitted| + i].callID == refused[i].id
          && output[start + |permitted| + i].result == "tool " + refused[i].name + " is not in the allowed_tools list")
  }

  /** The conversation gets the calls and then each answer as it is in the output. */
  ghost predicate HoldsMessages(w: World, t: nat, output: seq<Item>, messages: seq<ProviderMessage>)
    requires OutputStart(w, t + 1) <= |output|
    requires forall i | OutputStart(w, t) + |Sent(w, t)| <= i < OutputStart(w, t + 1) :: output[i].FunctionCallOutput?
  {
    var (start, from) := (OutputStart(w, t) + |Sent(w, t)|, MessageStart(w, t));
    && MessageStart(w, t + 1) <= |messages|
    && messages[from] == Api.ProviderMessage(Api.Assistant, "", Asks(w, t), "")
    && forall i | from < i < MessageStart(w, t + 1) ::
         messages[i] == Api.ProviderMessage(Api.Tool, output[start + (i - from - 1)].result, [], output[start + (i - from - 1)].callID)
  }

  /** A turn after which another follows: the provider was asked, its reply calls tools,
      the request does not forbid them, and each has an executor. */
  predicate CallsTools(w: World, req: Request, t: nat) {
    && !w.cancelledBefore(t) && w.reply(t).Reply? && Asks(w, t) != []
    && req.toolChoice != Some("none") && forall i | 0 <= i < |Asks(w, t)| :: w.handled(Asks(w, t)[i].name)
  }

  ghost predicate TurnTold(w: World, req: Request, t: nat, output: seq<Item>, messages: seq<ProviderMessage>) {
    && CallsTools(w, req, t) && HoldsReply(w, t, output) && HoldsAnswers(w, req, t, output)
    && HoldsMessages(w, t, output, messages)
  }

  lemma {:induction false} GoesOnMeans(w: World, req: Request, t: nat)
    ensures GoesOn(w, req, t) <==> CallsTools(w, req, t)
  {
    AsksAreCalls(w, t);
  }

  lemma {:induction false} TurnsLength(w: World, req: Request, n: nat)
    requires GoesOnUntil(w, req, n)
    ensures |OutputOf(Turns(w, req, n))| == OutputStart(w, n) && |MessagesOf(Turns(w, req, n))| == MessageStart(w, n)
  {
    hide GoesOn, TurnAt, CallsOf, OutputOf, MessagesOf, Sent, Asks;
    if n == 0 {
      NoTurns(w, req);
    } else {
      TurnsLength(w, req, n - 1);
      TurnAdded(w, req, n - 1, []);
      AddedLengths(w, req, n - 1);
      assert [] + MessagesOf(Turns(w, req, n)) == MessagesOf(Turns(w, req, n));
      assert [] + MessagesOf(Turns(w, req, n - 1)) == MessagesOf(Turns(w, req, n - 1));
    }
  }

  lemma {:induction false} NoTurns(w: World, req: Request)
    ensures OutputOf(Turns(w, req, 0)) == [] && MessagesOf(Turns(w, req, 0)) == []
  {
  }

  lemma {:induction false} AddedLengths(w: World, req: Request, t: nat)
    requires GoesOn(w, req, t)
    ensures |TurnAt(w, req, t).items| == |Sent(w, t)| && |TurnAt(w, req, t).answers| == |Asks(w, t)|
    ensures |TurnAt(w, req, t).results| == |Asks(w, t)|
  {
    AsksAreCalls(w, t);
    ResultsSay(w, req, t);
  }

  lemma {:induction false} LastTurnTold(w: World, req: Request, t: nat)
    requires GoesOnUntil(w, req, t + 1)
    ensures TurnTold(w, req, t, OutputOf(Turns(w, req, t + 1)), MessagesOf(Turns(w, req, t + 1)))
  {
    hide GoesOn, ResultsAt;
    var (output, messages) := (OutputOf(Turns(w, req, t)), MessagesOf(Turns(w, req, t)));
    assert GoesOn(w, req, t);
    TurnsLength(w, req, t);
    TurnAdded(w, req, t, []);
    assert [] + MessagesOf(Turns(w, req, t + 1)) == MessagesOf(Turns(w, req, t + 1)) && [] + messages == messages;
    GoesOnMeans(w, req, t);
    AsksAreCalls(w, t);
    ResultsSay(w, req, t);
    var (turn, results) := (TurnAt(w, req, t), ResultsAt(w, req, t));
    AddedLengths(w, req, t);
    ReplyHeld(w, t, output, turn.answers);
    SlotsHeld(w, t, output, results);
    AnswersHeld(w, req, t, output + ItemsAt(w, t) + turn.answers, results);
    MessagesHeld(w, t, output + ItemsAt(w, t) + turn.answers, messages, results);
  }

  lemma {:induction false} ItemNamed(w: World, t: nat, i: nat)
    requires i < |Sent(w, t)|
    ensures |ItemsAt(w, t)| == |Sent(w, t)|
    ensures ItemsAt(w, t)[i] == Sent(w, t)[i].(id := if Sent(w, t)[i].id == 0 then w.newItemID(t, i) else Sent(w, t)[i].id)
  {
  }

  lemma {:induction false} ReplyHeld(w: World, t: nat, before: seq<Item>, after: seq<Item>)
    requires |before| == OutputStart(w, t)
    ensures HoldsReply(w, t, before + ItemsAt(w, t) + after)
  {
    hide Sent, ItemsAt, OutputStart, CallsAt;
    AsksAreCalls(w, t);
    var output := before + ItemsAt(w, t) + after;
    forall i | 0 <= i < |Sent(w, t)|
      ensures output[OutputStart(w, t) + i]
           == Sent(w, t)[i].(id := if Sent(w, t)[i].id == 0 then w.newItemID(t, i) else Sent(w, t)[i].id)
    {
      ItemNamed(w, t, i);
    }
  }

  lemma {:induction false} ResultHeld(w: World, t: nat, before: seq<Item>, results: seq<ToolResult>, i: nat)
    requires |before| == OutputStart(w, t) && i < |results|
    ensures |ItemsAt(w, t)| == |Sent(w, t)|
    ensures (before + ItemsAt(w, t) + ResultItems(w, t, results))[OutputStart(w, t) + |Sent(w, t)| + i]
         == Api.FunctionCallOutput(w.newItemID(t, |Sent(w, t)| + i), Api.ItemCompleted, results[i].callID, results[i].output)
  {
    AsksAreCalls(w, t);
    assert (before + ItemsAt(w, t) + ResultItems(w, t, results))[OutputStart(w, t) + |Sent(w, t)| + i]
        == ResultItems(w, t, results)[i];
  }

  lemma {:induction false} NextStart(w: World, t: nat)
    ensures OutputStart(w, t + 1) == OutputStart(w, t) + |Sent(w, t)| + |Asks(w, t)|
    ensures MessageStart(w, t + 1) == MessageStart(w, t) + 1 + |Asks(w, t)|
  {
  }

  /** The slots of a turn's answers in the output. */
  ghost predicate HasSlots(w: World, t: nat, output: seq<Item>, results: seq<ToolResult>) {
    && |results| == |Asks(w, t)| && |output| == OutputStart(w, t + 1)
    && forall i | OutputStart(w, t) + |Sent(w, t)| <= i < OutputStart(w, t + 1) ::
         var k := i - OutputStart(w, t) - |Sent(w, t)|;
         0 <= k < |results| && output[i]
         == Api.FunctionCallOutput(w.newItemID(t, i - OutputStart(w, t)), Api.ItemCompleted, results[k].callID, results[k].output)
  }

  lemma {:induction false} SlotsHeld(w: World, t: nat, before: seq<Item>, results: seq<ToolResult>)
    requires |before| == OutputStart(w, t) && |results| == |Asks(w, t)|
    ensures HasSlots(w, t, before + ItemsAt(w, t) + ResultItems(w, t, results), results)
  {
    hide Sent, Asks, ItemsAt, CallsAt, OutputStart;
    AsksAreCalls(w, t);
    NextStart(w, t);
    var output := before + ItemsAt(w, t) + ResultItems(w, t, results);
    var start := OutputStart(w, t) + |Sent(w, t)|;
    forall i | start <= i < OutputStart(w, t + 1)
      ensures output[i] == Api.FunctionCallOutput(w.newItemID(t, i - OutputStart(w, t)), Api.ItemCompleted,
                                                  results[i - start].callID, results[i - start].output)
    {
      ResultHeld(w, t, before, results, i - start);
    }
  }

  lemma {:induction false} AnswersHeld(w: World, req: Request, t: nat, output: seq<Item>, results: seq<ToolResult>)
    requires GoesOn(w, req, t) && results == ResultsAt(w, req, t) && HasSlots(w, t, output, results)
    ensures HoldsAnswers(w, req, t, output)
  {
    hide GoesOn, ResultsAt, Permitted, Refused, AnsweredWith, Sent, Asks, OutputStart;
    NextStart(w, t);
    ResultsSay(w, req, t);
  }

  lemma {:induction false} MessagesHeld(w: World, t: nat, output: seq<Item>, messages: seq<ProviderMessage>, results: seq<ToolResult>)
    requires HasSlots(w, t, output, results) && |messages| == MessageStart(w, t)
    ensures OutputStart(w, t + 1) <= |output|
    ensures forall i | OutputStart(w, t) + |Sent(w, t)| <= i < OutputStart(w, t + 1) :: output[i].FunctionCallOutput?
    ensures HoldsMessages(w, t, output, messages + ([AssistantToolCallMessage(Asks(w, t))] + ToolMessages(results)))
  {
    hide Sent, Asks, OutputStart, MessageStart;
    NextStart(w, t);
  }

  lemma {:induction false} ReplyInLonger(w: World, t: nat, output: seq<Item>, more: seq<Item>)
    requires HoldsReply(w, t, output)
    ensures HoldsReply(w, t, output + more)
  {
    hide Sent, OutputStart;
    assert forall i | 0 <= i < |output| :: (output + more)[i] == output[i];
  }

  lemma {:induction false} AnswersInLonger(w: World, req: Request, t: nat, output: seq<Item>, more: seq<Item>)
    requires HoldsAnswers(w, req, t, output)
    ensures HoldsAnswers(w, req, t, output + more)
  {
    hide Permitted, Refused, AnsweredWith, Asks, Sent;
    assert forall i | 0 <= i < |output| :: (output + more)[i] == output[i];
    assert OutputStart(w, t + 1) == OutputStart(w, t) + |Sent(w, t)| + |Asks(w, t)|;
  }

  lemma {:induction false} ToldInLonger(
    w: World, req: Request, t: nat, output: seq<Item>, messages: seq<ProviderMessage>,
    more: seq<Item>, further: seq<ProviderMessage>)
    requires TurnTold(w, req, t, output, messages)
    ensures TurnTold(w, req, t, output + more, messages + further)
  {
    hide CallsTools, Permitted, Refused, AnsweredWith, Asks, Sent;
    ReplyInLonger(w, t, output, more);
    AnswersInLonger(w, req, t, output, more);
    assert forall i | 0 <= i < |output| :: (output + more)[i] == output[i];
    assert forall i | 0 <= i < |messages| :: (messages + further)[i] == messages[i];
    assert OutputStart(w, t + 1) == OutputStart(w, t) + |Sent(w, t)| + |Asks(w, t)|;
    assert MessageStart(w, t + 1) == MessageStart(w, t) + 1 + |Asks(w, t)|;
  }

  /** Each turn of a run but the last: the output holds its reply and what its tools gave,
      call by call, and so does the conversation. */
  lemma {:induction false} EveryTurnIsTold(w: World, req: Request, n: nat, t: nat)
    requires GoesOnUntil(w, req, n) && t < n
    ensures TurnTold(w, req, t, OutputOf(Turns(w, req, n)), MessagesOf(Turns(w, req, n)))
    ensures |OutputOf(Turns(w, req, n))| == OutputStart(w, n) && |MessagesOf(Turns(w, req, n))| == MessageStart(w, n)
    decreases n
  {
    hide GoesOn, TurnTold, TurnAt, CallsOf, OutputOf, MessagesOf, OutputStart, MessageStart;
    TurnsLength(w, req, n);
    if t == n - 1 {
      LastTurnTold(w, req, t);
    } else {
      var (output, messages) := (OutputOf(Turns(w, req, n - 1)), MessagesOf(Turns(w, req, n - 1)));
      EveryTurnIsTold(w, req, n - 1, t);
      TurnAdded(w, req, n - 1, []);
      var turn := TurnAt(w, req, n - 1);
      var further := [AssistantToolCallMessage(CallsOf(turn.items))] + ToolMessages(turn.results);
      assert [] + MessagesOf(Turns(w, req, n)) == MessagesOf(Turns(w, req, n)) && [] + messages == messages;
      Assoc(output, turn.items, turn.answers);
      ToldInLonger(w, req, t, output, messages, turn.items + turn.answers, further);
    }
  }

  // ----- The whole run -----

  /** The tokens of the first n replies, added up. */
  function Tokens(w: World, n: nat, part: Usage -> int): int {
    if n == 0 then 0 else Tokens(w, n - 1, part) + (if w.reply(n - 1).Reply? then part(w.reply(n - 1).usage) else 0)
  }

  predicate AddsUp(w: World, n: nat, usage: Usage) {
    && usage.inputTokens == Tokens(w, n, (u: Usage) => u.inputTokens)
    && usage.outputTokens == Tokens(w, n, (u: Usage) => u.outputTokens)
    && usage.totalTokens == Tokens(w, n, (u: Usage) => u.totalTokens)
  }

  lemma {:induction false} UsageAddsUp(w: World, n: nat)
    ensures AddsUp(w, n, UsageOf(w, n))
  {
    if n > 0 {
      UsageAddsUp(w, n - 1);
    }
  }

  /** The response of a run that is over: its status, the usage of the replies asked for,
      and the output of its turns, followed by the last reply if there was one. */
  ghost predicate Gives(w: World, req: Request, out: Outcome, n: nat, replies: nat, status: Status) {
    && out.Written? && out.status == status && AddsUp(w, replies, out.usage)
    && out.incompleteReason == (if status == Incomplete then Some("max_output_tokens") else None)
    && |out.output| == OutputStart(w, n) + (if replies > n then |Sent(w, n)| else 0)
    && (replies > n ==> HoldsReply(w, n, out.output))
    && forall t | 0 <= t < n :: TurnTold(w, req, t, out.output, MessagesOf(Turns(w, req, n)))
  }

  /** How a run ends that stops at turn n: at the turn limit, by cancellation, by an error
      of the provider, with a final reply, with calls that are forbidden, or with a call
      that the client must run. */
  ghost predicate EndsWith(w: World, req: Request, maxTurns: nat, n: nat, out: Outcome) {
    if n == maxTurns then Gives(w, req, out, n, n, Incomplete)
    else if w.cancelledBefore(n) then Gives(w, req, out, n, n, Cancelled)
    else
      match w.reply(n)
      case Fault(error) => if w.cancelledAfter(n) then Gives(w, req, out, n, n, Cancelled) else out == Aborted(error)
      case Reply(_, _, status) =>
        if Asks(w, n) == [] then Gives(w, req, out, n, n + 1, status)
        else if req.toolChoice == Some("none") then Gives(w, req, out, n, n + 1, Completed)
        else (exists i :: 0 <= i < |Asks(w, n)| && !w.handled(Asks(w, n)[i].name)) && Gives(w, req, out, n, n + 1, RequiresAction)
  }

  /** The first turn that does not call tools, or the turn limit, ends the run, as it says. */
  lemma {:induction false} EveryRunIsTold(w: World, req: Request, maxTurns: nat, n: nat)
    requires n <= maxTurns && GoesOnUntil(w, req, n) && (n < maxTurns ==> !GoesOn(w, req, n))
    ensures (forall t: nat | t < n :: CallsTools(w, req, t)) && (n < maxTurns ==> !CallsTools(w, req, n))
    ensures EndsWith(w, req, maxTurns, n, Verdict(w, req, maxTurns, n))
  {
    TurnsCallTools(w, req, n);
    GoesOnMeans(w, req, n);
    VerdictCases(w, req, maxTurns, n);
    StoppedGives(w, req, n, if n == maxTurns then Incomplete else Cancelled);
    if w.reply(n).Reply? {
      RepliedGives(w, req, n, FinalStatus(w, req, n));
    }
    AsksAreCalls(w, n);
  }

  lemma {:induction false} TurnsCallTools(w: World, req: Request, n: nat)
    requires GoesOnUntil(w, req, n)
    ensures forall t: nat | t < n :: CallsTools(w, req, t)
  {
    forall t: nat | t < n
      ensures CallsTools(w, req, t)
    {
      GoesOnMeans(w, req, t);
    }
  }

  lemma {:induction false} VerdictCases(w: World, req: Request, maxTurns: nat, n: nat)
    ensures var output := OutputOf(Turns(w, req, n));
      Verdict(w, req, maxTurns, n)
      == if n == maxTurns then Respond(Incomplete, output, UsageOf(w, n))
         else if w.cancelledBefore(n) || (w.reply(n).Fault? && w.cancelledAfter(n)) then Respond(Cancelled, output, UsageOf(w, n))
         else if w.reply(n).Fault? then Aborted(w.reply(n).error)
         else Respond(FinalStatus(w, req, n), output + ItemsAt(w, n), UsageOf(w, n + 1))
  {
  }

  lemma {:induction false} StoppedGives(w: World, req: Request, n: nat, status: Status)
    requires GoesOnUntil(w, req, n)
    ensures Gives(w, req, Respond(status, OutputOf(Turns(w, req, n)), UsageOf(w, n)), n, n, status)
  {
    hide GoesOn, TurnTold, OutputOf, MessagesOf, UsageOf, AddsUp, OutputStart, HoldsReply, ItemsAt, Sent;
    UsageAddsUp(w, n);
    OutputsGiven(w, req, n);
  }

  lemma {:induction false} RepliedGives(w: World, req: Request, n: nat, status: Status)
    requires GoesOnUntil(w, req, n)
    ensures Gives(w, req, Respond(status, OutputOf(Turns(w, req, n)) + ItemsAt(w, n), UsageOf(w, n + 1)), n, n + 1, status)
  {
    hide GoesOn, TurnTold, OutputOf, MessagesOf, UsageOf, AddsUp, OutputStart, HoldsReply, ItemsAt, Sent;
    UsageAddsUp(w, n + 1);
    OutputsGiven(w, req, n);
  }

  lemma {:induction false} OutputsGiven(w: World, req: Request, n: nat)
    requires GoesOnUntil(w, req, n)
    ensures var (output, messages) := (OutputOf(Turns(w, req, n)), MessagesOf(Turns(w, req, n)));
      && |output| == OutputStart(w, n)
      && (forall t | 0 <= t < n :: TurnTold(w, req, t, output, messages))
      && HoldsReply(w, n, output + ItemsAt(w, n)) && |ItemsAt(w, n)| == |Sent(w, n)|
      && (forall t | 0 <= t < n :: TurnTold(w, req, t, output + ItemsAt(w, n), messages))
  {
    hide GoesOn, TurnTold, OutputOf, MessagesOf, OutputStart, HoldsReply, ItemsAt, Sent, CallsAt;
    var (output, messages) := (OutputOf(Turns(w, req, n)), MessagesOf(Turns(w, req, n)));
    TurnsLength(w, req, n);
    AsksAreCalls(w, n);
    ReplyHeld(w, n, output, []);
    assert output + ItemsAt(w, n) + [] == output + ItemsAt(w, n);
    forall t | 0 <= t < n
      ensures TurnTold(w, req, t, output, messages) && TurnTold(w, req, t, output + ItemsAt(w, n), messages)
    {
      EveryTurnIsTold(w, req, n, t);
      ToldInLonger(w, req, t, output, messages, ItemsAt(w, n), []);
      assert messages + [] == messages;
    }
  }
}
