/** Conversation reconstruction of pkg/engine/history.go: the chain of
    previous_response_id links, oldest response first. */
module History {
  import opened Sequences
  import opened Wrappers
  import opened Api

  datatype StoredResponse = StoredResponse(previousResponseID: Option<string>, input: seq<Item>, output: seq<Item>)

  /** What GetResponseForChain returns to one caller, by id. */
  type Store = map<string, StoredResponse>

  datatype Error = NoStore | CycleDetected | NotFound(id: string)

  function ItemToMessage(item: Item): Option<ProviderMessage> {
    match item
    case Message(_, _, Assistant, _, output) =>
      Some(ProviderMessage(Assistant, if |output| > 0 then output[0] else "", [], ""))
    case Message(_, _, role, content, _) =>
      Some(ProviderMessage(role, if |content| > 0 then content[0] else "", [], ""))
    case FunctionCall(_, _, call) => Some(ProviderMessage(Assistant, "", [call], ""))
    case FunctionCallOutput(_, _, callID, result) => Some(ProviderMessage(Tool, result, [], callID))
    case Reasoning(_, _, _) => None
    case Bare(_, _) => None
  }

  /** A message keeps its role, and is the first part of what was said: an assistant's
      output, anyone else's content. A call is the assistant's, an output the tool's
      answer to its call. Nothing else is sent. */
  lemma {:induction false} MessageSays(item: Item)
    ensures ItemToMessage(item).None? <==> item.Reasoning? || item.Bare?
    ensures item.Message? ==>
      var m := ItemToMessage(item).value; var said := if item.role == Assistant then item.output else item.content;
      && m.role == item.role && m.toolCalls == [] && m.toolCallID == ""
      && (said != [] ==> m.content == said[0]) && (said == [] ==> m.content == "")
    ensures item.FunctionCall? ==> ItemToMessage(item) == Some(ProviderMessage(Assistant, "", [item.call], ""))
    ensures item.FunctionCallOutput? ==> ItemToMessage(item) == Some(ProviderMessage(Tool, item.result, [], item.callID))
  {
  }

  // ----- The chain, without the walk -----

  /** The id a response links to; "" ends the chain. */
  function Previous(store: Store, id: string): string {
    if id in store then store[id].previousResponseID.GetOr("") else ""
  }

  /** The id reached from `id` after n links. */
  function IdAt(store: Store, id: string, n: nat): string {
    if n == 0 then id
    else
      var at := IdAt(store, id, n - 1);
      if at == "" then "" else Previous(store, at)
  }

  /** The chain ends properly after n responses. */
  ghost predicate EndsAfter(store: Store, id: string, n: nat) {
    IdAt(store, id, n) == "" && forall i: nat | i < n :: IdAt(store, id, i) != "" && IdAt(store, id, i) in store
  }

  ghost predicate ReachesMissing(store: Store, id: string) {
    exists n: nat :: IdAt(store, id, n) != "" && IdAt(store, id, n) !in store
  }

  ghost predicate Repeats(store: Store, id: string) {
    exists i: nat, j: nat :: i < j && IdAt(store, id, i) == IdAt(store, id, j) != ""
  }

  function MessagesOf(items: seq<Item>): seq<ProviderMessage> {
    if items == [] then []
    else
      var before := MessagesOf(items[..|items| - 1]);
      var msg := ItemToMessage(items[|items| - 1]);
      if msg.Some? then before + [msg.value] else before
  }

  /** The messages of items are those of each item, in order. */
  lemma {:induction false} MessagesConcat(a: seq<Item>, b: seq<Item>)
    ensures MessagesOf(a + b) == MessagesOf(a) + MessagesOf(b)
    decreases |b|
  {
    if b == [] {
      assert a + b == a;
    } else {
      var (init, last) := (b[..|b| - 1], b[|b| - 1]);
      assert (a + b)[..|a + b| - 1] == a + init;
      MessagesConcat(a, init);
      if ItemToMessage(last).Some? {
        Assoc(MessagesOf(a), MessagesOf(init), [ItemToMessage(last).value]);
      }
    }
  }

  lemma {:induction false} MessagesOfOne(item: Item)
    ensures MessagesOf([item]) == if ItemToMessage(item).Some? then [ItemToMessage(item).value] else []
  {
    assert [item][..0] == [];
  }

  function TurnMessages(r: StoredResponse): seq<ProviderMessage> {
    MessagesOf(r.input) + MessagesOf(r.output)
  }

  /** history(id) = history(previous) ++ messages(input) ++ messages(output), for a
      chain of n responses. */
  ghost function HistoryOf(store: Store, id: string, n: nat): seq<ProviderMessage>
    requires EndsAfter(store, id, n)
    decreases n
  {
    if n == 0 then []
    else
      NextEndsAfter(store, id, n);
      HistoryOf(store, Previous(store, id), n - 1) + TurnMessages(store[id])
  }

  lemma {:induction false} IdAtTail(store: Store, id: string, n: nat)
    requires id != ""
    ensures IdAt(store, id, n + 1) == IdAt(store, Previous(store, id), n)
  {
    if n > 0 {
      IdAtTail(store, id, n - 1);
    }
  }

  lemma NextEndsAfter(store: Store, id: string, n: nat)
    requires EndsAfter(store, id, n) && n > 0
    ensures EndsAfter(store, Previous(store, id), n - 1)
    ensures id in store
  {
    assert IdAt(store, id, 0) == id;
    IdAtTail(store, id, n - 1);
    forall i: nat | i < n - 1
      ensures IdAt(store, Previous(store, id), i) != "" && IdAt(store, Previous(store, id), i) in store
    {
      IdAtTail(store, id, i);
    }
  }

  /** The newest response comes last, its input before its output. */
  lemma {:induction false} HistoryOneMore(store: Store, id: string, n: nat)
    requires EndsAfter(store, id, n) && n > 0
    ensures id in store && EndsAfter(store, Previous(store, id), n - 1)
    ensures HistoryOf(store, id, n)
         == HistoryOf(store, Previous(store, id), n - 1) + (MessagesOf(store[id].input) + MessagesOf(store[id].output))
  {
    NextEndsAfter(store, id, n);
  }

  /** Two visits to one id go on alike. */
  lemma {:induction false} SameIdSameFuture(store: Store, id: string, i: nat, j: nat, d: nat)
    requires IdAt(store, id, i) == IdAt(store, id, j)
    ensures IdAt(store, id, i + d) == IdAt(store, id, j + d)
  {
    if d > 0 {
      SameIdSameFuture(store, id, i, j, d - 1);
    }
  }

  lemma {:induction false} EmptyStaysEmpty(store: Store, id: string, n: nat, m: nat)
    requires n <= m && IdAt(store, id, n) == ""
    ensures IdAt(store, id, m) == ""
    decreases m
  {
    if n < m {
      EmptyStaysEmpty(store, id, n, m - 1);
    }
  }

  /** A chain ends, or reaches a missing id, or repeats: never two of these. */
  lemma OutcomesExclude(store: Store, id: string)
    ensures !(ReachesMissing(store, id) && Repeats(store, id))
    ensures forall n: nat | EndsAfter(store, id, n) :: !ReachesMissing(store, id) && !Repeats(store, id)
  {
    if Repeats(store, id) {
      var i: nat, j: nat :| i < j && IdAt(store, id, i) == IdAt(store, id, j) != "";
      forall n: nat | IdAt(store, id, n) != ""
        ensures IdAt(store, id, n) in store
      {
        NonEmptyForever(store, id, i, j, n + 1);
      }
      forall n: nat
        ensures IdAt(store, id, n) != ""
      {
        NonEmptyForever(store, id, i, j, n);
      }
    }
    forall n: nat, m: nat | EndsAfter(store, id, n) && IdAt(store, id, m) != ""
      ensures IdAt(store, id, m) in store
    {
      if n <= m {
        EmptyStaysEmpty(store, id, n, m);
      }
    }
  }

  lemma {:induction false} NonEmptyForever(store: Store, id: string, i: nat, j: nat, n: nat)
    requires i < j && IdAt(store, id, i) == IdAt(store, id, j) != ""
    ensures IdAt(store, id, n) != ""
  {
    if n <= j {
      if IdAt(store, id, n) == "" { EmptyStaysEmpty(store, id, n, j); }
    } else {
      NonEmptyForever(store, id, i, j, n - (j - i));
      SameIdSameFuture(store, id, i, j, n - j);
    }
  }

  // ----- The code -----

  function ChainMessages(chain: seq<StoredResponse>): seq<ProviderMessage> {
    if chain == [] then []
    else ChainMessages(chain[..|chain| - 1]) + TurnMessages(chain[|chain| - 1])
  }

  lemma {:induction false} OldestFirstIsHistory(store: Store, id: string, n: nat, chain: seq<StoredResponse>)
    requires EndsAfter(store, id, n) && |chain| == n
    requires forall k: nat | k < n :: chain[k] == store[IdAt(store, id, n - 1 - k)]
    ensures ChainMessages(chain) == HistoryOf(store, id, n)
    decreases n
  {
    if n > 0 {
      NextEndsAfter(store, id, n);
      assert IdAt(store, id, 0) == id;
      forall k: nat | k < n - 1
        ensures chain[k] == store[IdAt(store, Previous(store, id), n - 2 - k)]
      {
        IdAtTail(store, id, n - 2 - k);
      }
      OldestFirstIsHistory(store, Previous(store, id), n - 1, chain[..n - 1]);
    }
  }

  method AppendMessages(messages: seq<ProviderMessage>, items: seq<Item>) returns (longer: seq<ProviderMessage>)
    ensures longer == messages + MessagesOf(items)
  {
    longer := messages;
    for i := 0 to |items|
      invariant longer == messages + MessagesOf(items[..i])
    {
      assert items[..i + 1][..i] == items[..i];
      var msg := ItemToMessage(items[i]);
      if msg.Some? {
        longer := longer + [msg.value];
      }
    }
    assert items[..|items|] == items;
  }

  /** The in-place reversal of the chain. */
  method Reverse(chain: array<StoredResponse>)
    modifies chain
    ensures forall k | 0 <= k < chain.Length :: chain[k] == old(chain[chain.Length - 1 - k])
  {
    var i, j := 0, chain.Length - 1;
    while i < j
      invariant 0 <= i && j == chain.Length - 1 - i && i <= j + 1
      invariant forall k | 0 <= k < i || j < k < chain.Length :: chain[k] == old(chain[chain.Length - 1 - k])
      invariant forall k | i <= k <= j :: chain[k] == old(chain[k])
    {
      chain[i], chain[j] := chain[j], chain[i];
      i, j := i + 1, j - 1;
    }
  }

  /** `chain` holds the responses of the first |chain| ids of the walk. */
  ghost predicate Walked(store: Store, id: string, ids: seq<string>, chain: seq<StoredResponse>) {
    && |chain| == |ids|
    && forall k: nat {:trigger ids[k]} | k < |ids| ::
      ids[k] == IdAt(store, id, k) && ids[k] != "" && ids[k] in store && chain[k] == store[ids[k]]
  }

  lemma WalkOn(store: Store, id: string, ids: seq<string>, chain: seq<StoredResponse>, at: string)
    requires Walked(store, id, ids, chain) && at == IdAt(store, id, |ids|) && at != ""
    ensures at in ids ==> Repeats(store, id)
    ensures at in store ==> Walked(store, id, ids + [at], chain + [store[at]])
    ensures IdAt(store, id, |ids| + 1) == Previous(store, at)
  {
    if at in ids {
      var k :| 0 <= k < |ids| && ids[k] == at;
      assert IdAt(store, id, k) == IdAt(store, id, |ids|);
    }
  }

  lemma WalkEnds(store: Store, id: string, ids: seq<string>, chain: seq<StoredResponse>)
    requires Walked(store, id, ids, chain) && IdAt(store, id, |ids|) == ""
    ensures EndsAfter(store, id, |chain|)
    ensures forall k: nat | k < |chain| :: chain[k] == store[IdAt(store, id, k)]
  {
    forall k: nat | k < |chain|
      ensures IdAt(store, id, k) != "" && IdAt(store, id, k) in store && chain[k] == store[IdAt(store, id, k)]
    {
      assert ids[k] == IdAt(store, id, k);
    }
  }

  /** The walk along the links, newest response first. */
  method CollectChain(store: Store, responseID: string) returns (r: Result<seq<StoredResponse>, Error>)
    ensures r.Ok? ==>
              && EndsAfter(store, responseID, |r.value|)
              && forall k: nat | k < |r.value| :: r.value[k] == store[IdAt(store, responseID, k)]
    ensures r.Err? ==> !r.error.NoStore?
    ensures r.Err? && r.error.CycleDetected? ==> Repeats(store, responseID)
    ensures r.Err? && r.error.NotFound? ==>
              r.error.id != "" && r.error.id !in store && exists n: nat :: IdAt(store, responseID, n) == r.error.id
  {
    var chain: seq<StoredResponse> := [];
    var visited: set<string> := {};
    var currentID := responseID;
    ghost var ids: seq<string> := [];
    while currentID != ""
      invariant currentID == IdAt(store, responseID, |ids|)
      invariant Walked(store, responseID, ids, chain)
      invariant visited <= store.Keys && forall id | id in visited :: id in ids
      decreases store.Keys - visited
    {
      WalkOn(store, responseID, ids, chain, currentID);
      if currentID in visited {
        return Err(CycleDetected);
      }
      if currentID !in store {
        return Err(NotFound(currentID));
      }
      visited := visited + {currentID};
      var resp := store[currentID];
      ids := ids + [currentID];
      chain := chain + [resp];
      currentID := if resp.previousResponseID.Some? then resp.previousResponseID.value else "";
    }
    WalkEnds(store, responseID, ids, chain);
    return Ok(chain);
  }

  method ExtractMessages(chain: array<StoredResponse>) returns (messages: seq<ProviderMessage>)
    ensures messages == ChainMessages(chain[..])
  {
    messages := [];
    for i := 0 to chain.Length
      invariant messages == ChainMessages(chain[..i])
    {
      assert chain[..i + 1][..i] == chain[..i];
      messages := AppendMessages(messages, chain[i].input);
      messages := AppendMessages(messages, chain[i].output);
    }
    assert chain[..chain.Length] == chain[..];
  }

  /** Errors exactly when the chain repeats or reaches a missing id; otherwise it is
      the recursive history. */
  method LoadConversationHistory(source: Option<Store>, responseID: string)
    returns (r: Result<seq<ProviderMessage>, Error>)
    ensures r == Err(NoStore) <==> source.None?
    ensures source.Some? ==> (r == Err(CycleDetected) <==> Repeats(source.value, responseID))
    ensures source.Some? ==> ((r.Err? && r.error.NotFound?) <==> ReachesMissing(source.value, responseID))
    ensures r.Err? && r.error.NotFound? ==>
              r.error.id !in source.value && exists n: nat :: IdAt(source.value, responseID, n) == r.error.id
    ensures r.Ok? ==> exists n: nat ::
              EndsAfter(source.value, responseID, n) && r.value == HistoryOf(source.value, responseID, n)
  {
    hide IdAt, HistoryOf, ChainMessages, MessagesOf, Previous;
    if source.None? {
      return Err(NoStore);
    }
    var store := source.value;
    OutcomesExclude(store, responseID);
    var collected := CollectChain(store, responseID);
    if collected.Err? {
      return Err(collected.error);
    }
    var chain := collected.value;
    var n := |chain|;
    var oldestFirst := new StoredResponse[n](i requires 0 <= i < n => chain[i]);
    Reverse(oldestFirst);
    var messages := ExtractMessages(oldestFirst);
    assert forall k: nat | k < n :: oldestFirst[..][k] == chain[n - 1 - k];
    OldestFirstIsHistory(store, responseID, n, oldestFirst[..]);
    return Ok(messages);
  }
}
