/** Tool calls put together from fragments (pkg/provider/openaicompat/stream.go): what
    the buffers hold, told without them. */
module FragmentAssembly {
  import opened Api
  import opened ChatStream

  predicate Mentions(frags: seq<Fragment>, index: int) {
    frags != [] && (Mentions(frags[..|frags| - 1], index) || frags[|frags| - 1].index == index)
  }

  /** The first fragment with this index. */
  function FirstOf(frags: seq<Fragment>, index: int): Fragment
    requires Mentions(frags, index)
  {
    var init := frags[..|frags| - 1];
    if Mentions(init, index) then FirstOf(init, index) else frags[|frags| - 1]
  }

  function ArgumentsOf(frags: seq<Fragment>, index: int): string {
    if frags == [] then ""
    else
      var last := frags[|frags| - 1];
      ArgumentsOf(frags[..|frags| - 1], index) + (if last.index == index then last.arguments else "")
  }

  function CallOf(frags: seq<Fragment>, index: int): ToolCall
    requires Mentions(frags, index)
  {
    ToolCall(FirstOf(frags, index).id, FirstOf(frags, index).name, ArgumentsOf(frags, index))
  }

  function BufferedCall(buf: Buffer): ToolCall {
    ToolCall(buf.id, buf.name, buf.args)
  }

  lemma {:induction false} NotMentioned(frags: seq<Fragment>, index: int)
    requires !Mentions(frags, index)
    ensures ArgumentsOf(frags, index) == ""
  {
    if frags != [] {
      NotMentioned(frags[..|frags| - 1], index);
    }
  }

  /** The buffers hold the call of each index that was mentioned, and nothing else. */
  lemma {:induction false} BuffersHoldCalls(frags: seq<Fragment>, index: int)
    ensures index in AddFragments(map[], frags) <==> Mentions(frags, index)
    ensures Mentions(frags, index) ==> BufferedCall(At(AddFragments(map[], frags), index)) == CallOf(frags, index)
  {
    if frags != [] {
      var (init, last) := (frags[..|frags| - 1], frags[|frags| - 1]);
      BuffersHoldCalls(init, index);
      if !Mentions(init, index) {
        NotMentioned(init, index);
      }
    }
  }

  lemma {:induction false} AddConcat(bufs: Buffers, a: seq<Fragment>, b: seq<Fragment>)
    ensures AddFragments(bufs, a + b) == AddFragments(AddFragments(bufs, a), b)
    decreases |b|
  {
    if b == [] {
      assert a + b == a;
    } else {
      assert (a + b)[..|a + b| - 1] == a + b[..|b| - 1];
      AddConcat(bufs, a, b[..|b| - 1]);
    }
  }

  lemma {:induction false} BuffersGrow(bufs: Buffers, frags: seq<Fragment>, index: int)
    ensures var b := AddFragments(bufs, frags);
      && (index in bufs ==> index in b && |b[index].args| >= |bufs[index].args|)
      && (forall f | f in frags && f.index == index ::
            index in b && |At(b, index).args| >= |At(bufs, index).args| + |f.arguments|)
    decreases |frags|
  {
    if frags != [] {
      var (init, last) := (frags[..|frags| - 1], frags[|frags| - 1]);
      BuffersGrow(bufs, init, index);
      assert frags == init + [last];
    }
  }

  predicate AddsNothing(bufs: Buffers, frags: seq<Fragment>) {
    forall f | f in frags :: f.index in bufs && f.arguments == ""
  }

  lemma {:induction false} NothingAdded(bufs: Buffers, frags: seq<Fragment>)
    requires AddsNothing(bufs, frags)
    ensures AddFragments(bufs, frags) == bufs
    decreases |frags|
  {
    if frags != [] {
      var (init, last) := (frags[..|frags| - 1], frags[|frags| - 1]);
      NothingAdded(bufs, init);
      assert last in frags;
      assert bufs[last.index].args + "" == bufs[last.index].args;
    }
  }

  /** Fragments leave the buffers alone exactly when they begin no call and add no
      arguments. */
  lemma {:induction false} AddsNothingExactlyWhen(bufs: Buffers, frags: seq<Fragment>)
    ensures AddFragments(bufs, frags) == bufs <==> AddsNothing(bufs, frags)
  {
    if AddsNothing(bufs, frags) {
      NothingAdded(bufs, frags);
    } else {
      var f :| f in frags && !(f.index in bufs && f.arguments == "");
      BuffersGrow(bufs, frags, f.index);
    }
  }

  // ----- Counting calls -----

  /** How often a call occurs among the buffers in this order. */
  function Occurs(bufs: Buffers, order: seq<int>, call: ToolCall): nat {
    if order == [] then 0
    else
      Occurs(bufs, order[..|order| - 1], call)
      + (if BufferedCall(At(bufs, order[|order| - 1])) == call then 1 else 0)
  }

  function Holding(bufs: Buffers, order: seq<int>, call: ToolCall): set<int> {
    set k | k in order && BufferedCall(At(bufs, k)) == call
  }

  lemma {:induction false} OccursIsSize(bufs: Buffers, order: seq<int>, call: ToolCall)
    requires forall i, j | 0 <= i < j < |order| :: order[i] != order[j]
    ensures Occurs(bufs, order, call) == |Holding(bufs, order, call)|
  {
    if order != [] {
      var (init, last) := (order[..|order| - 1], order[|order| - 1]);
      OccursIsSize(bufs, init, call);
      assert order == init + [last];
      var (before, after) := (Holding(bufs, init, call), Holding(bufs, order, call));
      assert last !in before;
      if BufferedCall(At(bufs, last)) == call {
        assert after == before + {last};
      } else {
        assert after == before;
      }
    }
  }

  /** Two walks over the same buffers meet every call equally often. */
  lemma {:induction false} WalksAgree(bufs: Buffers, a: seq<int>, b: seq<int>, call: ToolCall)
    requires Lists(a, bufs) && Lists(b, bufs)
    ensures Occurs(bufs, a, call) == Occurs(bufs, b, call)
  {
    OccursIsSize(bufs, a, call);
    OccursIsSize(bufs, b, call);
    forall k
      ensures k in a <==> k in b
    {
      assert k in a ==> k in bufs;
      assert k in b ==> k in bufs;
    }
    assert Holding(bufs, a, call) == Holding(bufs, b, call);
  }

  // ----- Equal calls from different buffers -----

  function InOrder(bufs: Buffers, order: seq<int>): (calls: seq<ToolCall>)
    ensures |calls| == |order|
  {
    seq(|order|, i requires 0 <= i < |order| => BufferedCall(At(bufs, order[i])))
  }

  function Count(calls: seq<ToolCall>, call: ToolCall): nat {
    if calls == [] then 0
    else Count(calls[..|calls| - 1], call) + (if calls[|calls| - 1] == call then 1 else 0)
  }

  /** One for each call and one for each character of its arguments. */
  function Weight(calls: seq<ToolCall>): nat {
    if calls == [] then 0 else Weight(calls[..|calls| - 1]) + 1 + |calls[|calls| - 1].arguments|
  }

  lemma {:induction false} OccursIsCount(bufs: Buffers, order: seq<int>, call: ToolCall)
    ensures Occurs(bufs, order, call) == Count(InOrder(bufs, order), call)
  {
    if order != [] {
      var n := |order| - 1;
      OccursIsCount(bufs, order[..n], call);
      assert InOrder(bufs, order)[..n] == InOrder(bufs, order[..n]);
    }
  }

  lemma {:induction false} CallsConcat(a: seq<ToolCall>, b: seq<ToolCall>, call: ToolCall)
    ensures Count(a + b, call) == Count(a, call) + Count(b, call)
    ensures Weight(a + b) == Weight(a) + Weight(b)
    decreases |b|
  {
    if b == [] {
      assert a + b == a;
    } else {
      assert (a + b)[..|a + b| - 1] == a + b[..|b| - 1];
      CallsConcat(a, b[..|b| - 1], call);
    }
  }

  lemma {:induction false} OneCall(x: ToolCall, call: ToolCall)
    ensures Count([x], call) == (if x == call then 1 else 0)
    ensures Weight([x]) == 1 + |x.arguments|
  {
    assert [x][..0] == [];
  }

  lemma {:induction false} CountedIsIn(calls: seq<ToolCall>, call: ToolCall) returns (i: nat)
    requires Count(calls, call) > 0
    ensures i < |calls| && calls[i] == call
  {
    var n := |calls| - 1;
    if calls[n] == call {
      i := n;
    } else {
      i := CountedIsIn(calls[..n], call);
    }
  }

  function WithoutAt(calls: seq<ToolCall>, i: nat): seq<ToolCall>
    requires i < |calls|
  {
    calls[..i] + calls[i + 1..]
  }

  lemma {:induction false} TakenOut(calls: seq<ToolCall>, i: nat, call: ToolCall)
    requires i < |calls|
    ensures Count(calls, call) == Count(WithoutAt(calls, i), call) + (if calls[i] == call then 1 else 0)
    ensures Weight(calls) == Weight(WithoutAt(calls, i)) + 1 + |calls[i].arguments|
  {
    assert calls == calls[..i] + [calls[i]] + calls[i + 1..];
    CallsConcat(calls[..i] + [calls[i]], calls[i + 1..], call);
    CallsConcat(calls[..i], [calls[i]], call);
    CallsConcat(calls[..i], calls[i + 1..], call);
    OneCall(calls[i], call);
  }

  lemma {:induction false} NoneCounted(b: seq<ToolCall>)
    requires forall call :: Count(b, call) == 0
    ensures b == []
  {
    if b != [] {
      assert Count(b, b[|b| - 1]) > 0;
    }
  }

  /** Calls that occur equally often weigh the same. */
  lemma {:induction false} EqualCountsWeighSame(a: seq<ToolCall>, b: seq<ToolCall>)
    requires forall call :: Count(a, call) == Count(b, call)
    ensures Weight(a) == Weight(b)
    decreases |a|
  {
    if a == [] {
      NoneCounted(b);
    } else {
      var n := |a| - 1;
      assert Count(a, a[n]) > 0;
      var i := CountedIsIn(b, a[n]);
      forall call
        ensures Count(a[..n], call) == Count(WithoutAt(b, i), call)
      {
        TakenOut(b, i, call);
        assert Count(a, call) == Count(b, call);
      }
      EqualCountsWeighSame(a[..n], WithoutAt(b, i));
      TakenOut(b, i, a[n]);
    }
  }

  lemma {:induction false} WeightGrows(less: Buffers, more: Buffers, order: seq<int>)
    requires forall i | 0 <= i < |order| :: |At(less, order[i]).args| <= |At(more, order[i]).args|
    ensures Weight(InOrder(less, order)) <= Weight(InOrder(more, order))
    ensures (exists i :: 0 <= i < |order| && |At(less, order[i]).args| < |At(more, order[i]).args|) ==>
      Weight(InOrder(less, order)) < Weight(InOrder(more, order))
  {
    if order != [] {
      var n := |order| - 1;
      WeightGrows(less, more, order[..n]);
      assert InOrder(less, order)[..n] == InOrder(less, order[..n]);
      assert InOrder(more, order)[..n] == InOrder(more, order[..n]);
      assert forall i | 0 <= i < n :: order[..n][i] == order[i];
    }
  }

  /** What is left of a walk, in its order, without these keys. */
  function Others(walk: seq<int>, known: seq<int>): seq<int> {
    if walk == [] then []
    else
      var last := walk[|walk| - 1];
      Others(walk[..|walk| - 1], known) + (if last in known then [] else [last])
  }

  lemma {:induction false} OthersAre(walk: seq<int>, known: seq<int>)
    requires forall i, j | 0 <= i < j < |walk| :: walk[i] != walk[j]
    ensures var others := Others(walk, known);
      && (forall k :: k in others <==> k in walk && k !in known)
      && (forall i, j | 0 <= i < j < |others| :: others[i] != others[j])
  {
    if walk != [] {
      var (init, last) := (walk[..|walk| - 1], walk[|walk| - 1]);
      OthersAre(init, known);
      assert walk == init + [last];
      assert last !in init;
    }
  }

  lemma {:induction false} InConcat<T>(a: seq<T>, b: seq<T>, x: T)
    ensures x in a + b <==> x in a || x in b
  {
  }

  /** A walk over fewer buffers can be continued to one over more. */
  lemma {:induction false} WalkOn(less: Buffers, more: Buffers, order: seq<int>, walk: seq<int>)
    requires Lists(order, less) && Lists(walk, more) && forall k | k in less :: k in more
    ensures Lists(order + Others(walk, order), more)
  {
    OthersAre(walk, order);
    var others := Others(walk, order);
    forall k
      ensures k in order + others <==> k in more
    {
      InConcat(order, others, k);
    }
    forall i, j | 0 <= i < j < |order + others|
      ensures (order + others)[i] != (order + others)[j]
    {
      if i < |order| <= j {
        assert others[j - |order|] in others && order[i] in order;
      } else if |order| <= i {
        assert others[i - |order|] != others[j - |order|];
      }
    }
  }

  /** Walked in these orders, two maps of buffers have the same calls equally often. */
  ghost predicate SameCalls(a: Buffers, order: seq<int>, b: Buffers, walk: seq<int>) {
    forall call :: Occurs(a, order, call) == Occurs(b, walk, call)
  }

  /** The buffers before and after some fragments, walked in any orders, have the same
      calls if and only if the fragments begin no call and add no arguments. */
  lemma {:induction false} SameCallsExactlyWhen(bufs: Buffers, frags: seq<Fragment>, order: seq<int>, walk: seq<int>)
    requires Lists(order, bufs) && Lists(walk, AddFragments(bufs, frags))
    ensures SameCalls(bufs, order, AddFragments(bufs, frags), walk) <==> AddsNothing(bufs, frags)
  {
    if AddsNothing(bufs, frags) {
      NothingAdded(bufs, frags);
      forall call
        ensures Occurs(bufs, order, call) == Occurs(bufs, walk, call)
      {
        WalksAgree(bufs, order, walk, call);
      }
    } else {
      AddingIsHeavier(bufs, frags, order, walk);
      if SameCalls(bufs, order, AddFragments(bufs, frags), walk) {
        SameCallsWeighSame(bufs, order, AddFragments(bufs, frags), walk);
      }
    }
  }

  lemma {:induction false} SameCallsWeighSame(a: Buffers, order: seq<int>, b: Buffers, walk: seq<int>)
    requires SameCalls(a, order, b, walk)
    ensures Weight(InOrder(a, order)) == Weight(InOrder(b, walk))
  {
    forall call
      ensures Count(InOrder(a, order), call) == Count(InOrder(b, walk), call)
    {
      OccursIsCount(a, order, call);
      OccursIsCount(b, walk, call);
    }
    EqualCountsWeighSame(InOrder(a, order), InOrder(b, walk));
  }

  /** Fragments never make the calls of a walk lighter, and make them heavier if one of
      them adds arguments. */
  lemma {:induction false} OldCallsGrow(bufs: Buffers, frags: seq<Fragment>, order: seq<int>)
    requires Lists(order, bufs)
    ensures Weight(InOrder(bufs, order)) <= Weight(InOrder(AddFragments(bufs, frags), order))
    ensures forall f | f in frags && f.index in bufs && f.arguments != "" ::
      Weight(InOrder(bufs, order)) < Weight(InOrder(AddFragments(bufs, frags), order))
  {
    var more := AddFragments(bufs, frags);
    forall i | 0 <= i < |order|
      ensures |At(bufs, order[i]).args| <= |At(more, order[i]).args|
    {
      BuffersGrow(bufs, frags, order[i]);
    }
    WeightGrows(bufs, more, order);
    forall f | f in frags && f.index in bufs && f.arguments != ""
      ensures Weight(InOrder(bufs, order)) < Weight(InOrder(more, order))
    {
      BuffersGrow(bufs, frags, f.index);
      assert f.index in order;
      var i :| 0 <= i < |order| && order[i] == f.index;
      assert |At(bufs, order[i]).args| < |At(more, order[i]).args|;
    }
  }

  lemma {:induction false} WeightSplits(bufs: Buffers, a: seq<int>, b: seq<int>)
    ensures Weight(InOrder(bufs, a + b)) == Weight(InOrder(bufs, a)) + Weight(InOrder(bufs, b))
    ensures b != [] ==> Weight(InOrder(bufs, b)) > 0
  {
    assert InOrder(bufs, a + b) == InOrder(bufs, a) + InOrder(bufs, b);
    CallsConcat(InOrder(bufs, a), InOrder(bufs, b), ToolCall("", "", ""));
  }

  lemma {:induction false} KeysGrow(bufs: Buffers, frags: seq<Fragment>)
    ensures forall k | k in bufs :: k in AddFragments(bufs, frags)
    ensures forall f | f in frags :: f.index in AddFragments(bufs, frags)
  {
    forall k | k in bufs
      ensures k in AddFragments(bufs, frags)
    {
      BuffersGrow(bufs, frags, k);
    }
    forall f | f in frags
      ensures f.index in AddFragments(bufs, frags)
    {
      BuffersGrow(bufs, frags, f.index);
    }
  }

  lemma {:induction false} AddingIsHeavier(bufs: Buffers, frags: seq<Fragment>, order: seq<int>, walk: seq<int>)
    requires Lists(order, bufs) && Lists(walk, AddFragments(bufs, frags)) && !AddsNothing(bufs, frags)
    ensures Weight(InOrder(bufs, order)) < Weight(InOrder(AddFragments(bufs, frags), walk))
  {
    var (more, others) := (AddFragments(bufs, frags), Others(walk, order));
    KeysGrow(bufs, frags);
    OldCallsGrow(bufs, frags, order);
    WalkOn(bufs, more, order, walk);
    SameWeight(more, order + others, walk);
    WeightSplits(more, order, others);
    var f :| f in frags && !(f.index in bufs && f.arguments == "");
    if f.index !in bufs {
      OthersAre(walk, order);
      assert f.index in walk && f.index !in order;
      assert f.index in others;
    }
  }

  lemma {:induction false} SameWeight(bufs: Buffers, a: seq<int>, b: seq<int>)
    requires Lists(a, bufs) && Lists(b, bufs)
    ensures Weight(InOrder(bufs, a)) == Weight(InOrder(bufs, b))
  {
    forall call
      ensures Count(InOrder(bufs, a), call) == Count(InOrder(bufs, b), call)
    {
      WalksAgree(bufs, a, b, call);
      OccursIsCount(bufs, a, call);
      OccursIsCount(bufs, b, call);
    }
    EqualCountsWeighSame(InOrder(bufs, a), InOrder(bufs, b));
  }
}
