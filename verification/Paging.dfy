/** Listing with cursors, as in ListResponses of pkg/storage/memory/memory.go. */
module Paging {
  import opened Wrappers
  import opened ResponseState
  import opened StoreContents
  import opened Sorting

  // ----- The order of a listing -----

  /** Go's order on strings. */
  predicate LexLeq(a: string, b: string) {
    a == "" || (b != "" && (a[0] < b[0] || (a[0] == b[0] && LexLeq(a[1..], b[1..]))))
  }

  lemma {:induction false} LexTotal(a: string, b: string)
    ensures LexLeq(a, b) || LexLeq(b, a)
    ensures LexLeq(a, b) && LexLeq(b, a) ==> a == b
  {
    if a != "" && b != "" {
      LexTotal(a[1..], b[1..]);
      assert a == [a[0]] + a[1..] && b == [b[0]] + b[1..];
    }
  }

  lemma {:induction false} LexTransitive(a: string, b: string, c: string)
    requires LexLeq(a, b) && LexLeq(b, c)
    ensures LexLeq(a, c)
  {
    if a != "" && a[0] == b[0] == c[0] {
      LexTransitive(a[1..], b[1..], c[1..]);
    }
  }

  predicate OldestFirst(x: Response, y: Response) {
    x.createdAt < y.createdAt || (x.createdAt == y.createdAt && LexLeq(x.id, y.id))
  }

  predicate NewestFirst(x: Response, y: Response) {
    OldestFirst(y, x)
  }

  function Order(asc: bool): (Response, Response) -> bool {
    if asc then OldestFirst else NewestFirst
  }

  lemma OrderIsPreorder(asc: bool)
    ensures TotalPreorder(Order(asc))
  {
    forall x: Response, y: Response
      ensures OldestFirst(x, y) || OldestFirst(y, x)
    {
      LexTotal(x.id, y.id);
    }
    forall x: Response, y: Response, z: Response | OldestFirst(x, y) && OldestFirst(y, z)
      ensures OldestFirst(x, z)
    {
      if x.createdAt == y.createdAt == z.createdAt {
        LexTransitive(x.id, y.id, z.id);
      }
    }
  }

  lemma SameRankSameId(asc: bool, x: Response, y: Response)
    requires Order(asc)(x, y) && Order(asc)(y, x)
    ensures x.id == y.id
  {
    LexTotal(x.id, y.id);
  }

  // ----- Listings and pages -----

  datatype ListOptions = ListOptions(model: string, status: Option<Status>, background: Option<bool>,
                                     asc: bool, after: string, before: string, limit: int)

  predicate Matches(caller: Caller, opts: ListOptions, e: Entry) {
    && e.deletedAt.None? && Visible(caller, e)
    && (opts.model != "" ==> e.resp.model == opts.model)
    && (opts.status.Some? ==> e.resp.status == opts.status.value)
    && (opts.background.Some? ==> e.resp.background == opts.background.value)
  }

  ghost predicate DistinctIds(all: seq<Response>) {
    forall i, j | 0 <= i < j < |all| :: all[i].id != all[j].id
  }

  /** The matching responses among the entries already visited. */
  function SelectedSoFar(c: Contents, caller: Caller, opts: ListOptions, unread: set<string>): set<Response> {
    set id | id in c.entries && id !in unread && Matches(caller, opts, c.entries[id]) :: c.entries[id].resp
  }

  lemma SelectOne(c: Contents, caller: Caller, opts: ListOptions, unread: set<string>, id: string)
    requires id in unread && id in c.entries
    requires forall i | i in c.entries :: c.entries[i].resp.id == i
    ensures multiset(SelectedSoFar(c, caller, opts, unread - {id})) ==
            multiset(SelectedSoFar(c, caller, opts, unread)) +
            if Matches(caller, opts, c.entries[id]) then multiset{c.entries[id].resp} else multiset{}
  {
    var found := SelectedSoFar(c, caller, opts, unread);
    assert c.entries[id].resp !in found;
    assert SelectedSoFar(c, caller, opts, unread - {id}) ==
           if Matches(caller, opts, c.entries[id]) then found + {c.entries[id].resp} else found;
  }

  function Selected(c: Contents, caller: Caller, opts: ListOptions): set<Response> {
    set id | id in c.entries && Matches(caller, opts, c.entries[id]) :: c.entries[id].resp
  }

  /** Every matching response, once, in order. */
  ghost predicate IsListing(all: seq<Response>, c: Contents, caller: Caller, opts: ListOptions) {
    Sorted(all, Order(opts.asc)) && multiset(all) == multiset(Selected(c, caller, opts))
  }

  /** A listing shows just the responses that are not deleted, that the caller may see,
      and that each given filter lets through. */
  lemma {:induction false} ListedExactlyWhen(all: seq<Response>, c: Contents, caller: Caller, opts: ListOptions, id: string)
    requires IsListing(all, c, caller, opts) && id in c.entries
    requires forall i | i in c.entries :: c.entries[i].resp.id == i
    ensures var e := c.entries[id];
      (e.resp in all) <==>
        && e.deletedAt.None? && Visible(caller, e)
        && (opts.model == "" || opts.model == e.resp.model)
        && (opts.status.None? || opts.status == Some(e.resp.status))
        && (opts.background.None? || opts.background == Some(e.resp.background))
  {
    var e := c.entries[id];
    assert e.resp in all <==> e.resp in multiset(all);
    assert e.resp in multiset(all) <==> e.resp in Selected(c, caller, opts);
    if e.resp in Selected(c, caller, opts) {
      var other :| other in c.entries && Matches(caller, opts, c.entries[other]) && c.entries[other].resp == e.resp;
      assert other == id;
    }
  }

  /** A response that was deleted is in nobody's listing. */
  lemma {:induction false} DeletedIsUnlisted(
    all: seq<Response>, c: Contents, deleter: Caller, id: string, now: int, caller: Caller, opts: ListOptions)
    requires id in c.entries && Visible(deleter, c.entries[id])
    requires forall i | i in c.entries :: c.entries[i].resp.id == i
    requires IsListing(all, Deleted(c, deleter, id, now), caller, opts)
    ensures forall r | r in all :: r.id != id
  {
    var after := Deleted(c, deleter, id, now);
    forall r | r in all
      ensures r.id != id
    {
      assert r in multiset(all) && r in Selected(after, caller, opts);
    }
  }

  lemma ListedOnce(all: seq<Response>, i: nat, j: nat)
    requires i < j < |all| && all[i] == all[j]
    ensures multiset(all)[all[i]] >= 2
  {
    SplitMultiset(all, j);
    assert all[..j][i] == all[i] && all[j..][0] == all[j];
  }

  lemma ListingDistinct(all: seq<Response>, c: Contents, caller: Caller, opts: ListOptions)
    requires multiset(all) == multiset(Selected(c, caller, opts))
    requires forall id | id in c.entries :: c.entries[id].resp.id == id
    ensures DistinctIds(all) && forall r | r in all :: r.id in c.entries
  {
    forall r | r in all
      ensures r.id in c.entries && c.entries[r.id].resp == r
    {
      assert r in multiset(all) && r in Selected(c, caller, opts);
    }
    forall i, j | 0 <= i < j < |all|
      ensures all[i].id != all[j].id
    {
      if all[i].id == all[j].id {
        assert all[i] in all && all[j] in all;
        ListedOnce(all, i, j);
      }
    }
  }

  lemma FirstIsFirst(a: seq<Response>, b: seq<Response>, asc: bool)
    requires a != [] && b != [] && Sorted(a, Order(asc)) && Sorted(b, Order(asc))
    requires DistinctIds(a) && forall r :: r in a <==> r in b
    ensures a[0] == b[0]
  {
    OrderIsPreorder(asc);
    assert a[0] in b && b[0] in a;
    var i :| 0 <= i < |b| && b[i] == a[0];
    var j :| 0 <= j < |a| && a[j] == b[0];
    assert Order(asc)(b[0], b[i]) && Order(asc)(a[0], a[j]);
    SameRankSameId(asc, a[0], b[0]);
  }

  /** Ties are broken by id, so any two ways of sorting give the same listing. */
  lemma {:induction false} ListingUnique(a: seq<Response>, b: seq<Response>, asc: bool)
    requires Sorted(a, Order(asc)) && Sorted(b, Order(asc)) && DistinctIds(a) && DistinctIds(b)
    requires forall r :: r in a <==> r in b
    ensures a == b
  {
    BothEmpty(a, b);
    BothEmpty(b, a);
    if a != [] {
      FirstIsFirst(a, b, asc);
      RestHasTheRest(a);
      RestHasTheRest(b);
      ListingUnique(a[1..], b[1..], asc);
      assert a == [a[0]] + a[1..] && b == [b[0]] + b[1..];
    }
  }

  /** The order of a listing: by the time of creation, as asked for, and by id among
      those created at one time. */
  lemma {:induction false} ListingIsOrdered(all: seq<Response>, c: Contents, caller: Caller, opts: ListOptions, i: nat, j: nat)
    requires IsListing(all, c, caller, opts) && i < j < |all|
    ensures opts.asc ==> all[i].createdAt <= all[j].createdAt
    ensures !opts.asc ==> all[i].createdAt >= all[j].createdAt
    ensures all[i].createdAt == all[j].createdAt ==>
      if opts.asc then LexLeq(all[i].id, all[j].id) else LexLeq(all[j].id, all[i].id)
  {
    assert Order(opts.asc)(all[i], all[j]);
  }

  lemma BothEmpty(a: seq<Response>, b: seq<Response>)
    requires forall r :: r in a <==> r in b
    ensures a == [] ==> b == []
  {
    if b != [] {
      assert b[0] in b;
    }
  }

  /** So the pages of a store that does not change are cut from one listing. */
  lemma ListingsAgree(a: seq<Response>, b: seq<Response>, c: Contents, caller: Caller, opts: ListOptions)
    requires IsListing(a, c, caller, opts) && IsListing(b, c, caller, opts)
    requires forall id | id in c.entries :: c.entries[id].resp.id == id
    ensures a == b
  {
    ListingDistinct(a, c, caller, opts);
    ListingDistinct(b, c, caller, opts);
    assert forall r :: (r in a <==> r in multiset(a)) && (r in b <==> r in multiset(b));
    ListingUnique(a, b, opts.asc);
  }

  lemma RestHasTheRest(a: seq<Response>)
    requires a != [] && DistinctIds(a)
    ensures forall r :: r in a[1..] <==> r in a && r != a[0]
  {
    assert a == [a[0]] + a[1..];
  }

  datatype Page = Page(data: seq<Response>, hasMore: bool, firstID: string, lastID: string)

  function Clamp(limit: int): nat {
    if limit <= 0 then 20 else if limit > 100 then 100 else limit
  }

  function IndexOf(all: seq<Response>, id: string): (i: nat)
    ensures i <= |all| && (i < |all| ==> all[i].id == id) && forall j | 0 <= j < i :: all[j].id != id
  {
    if all == [] || all[0].id == id then 0 else 1 + IndexOf(all[1..], id)
  }

  /** What is left of a listing for a cursor. */
  function Rest(all: seq<Response>, after: string, before: string): seq<Response> {
    if after != "" then
      var i := IndexOf(all, after);
      if i < |all| then all[i + 1..] else []
    else if before != "" then
      var i := IndexOf(all, before);
      if i < |all| then all[..i] else []
    else all
  }

  function PageOf(all: seq<Response>, opts: ListOptions): Page {
    var rest, limit := Rest(all, opts.after, opts.before), Clamp(opts.limit);
    var data := if |rest| > limit then rest[..limit] else rest;
    Page(data, |rest| > limit,
         if data == [] then "" else data[0].id,
         if data == [] then "" else data[|data| - 1].id)
  }

  /** What a cursor leaves is right after the `after` id, or before the `before` id if there
      is no `after`, or everything; it is nothing if the listing has no such id. */
  lemma {:induction false} RestIsCut(all: seq<Response>, after: string, before: string) returns (start: nat, end: nat)
    ensures start <= end <= |all| && Rest(all, after, before) == all[start..end]
    ensures after != "" && (exists k :: 0 <= k < |all| && all[k].id == after) ==>
      start > 0 && all[start - 1].id == after && end == |all|
    ensures after == "" && before != "" && (exists k :: 0 <= k < |all| && all[k].id == before) ==>
      start == 0 && end < |all| && all[end].id == before
    ensures after == "" && before == "" ==> start == 0 && end == |all|
    ensures after != "" && (forall k | 0 <= k < |all| :: all[k].id != after) ==> start == end
    ensures after == "" && before != "" && (forall k | 0 <= k < |all| :: all[k].id != before) ==> start == end
  {
    var i := IndexOf(all, if after != "" then after else before);
    if after != "" {
      start, end := if i < |all| then i + 1 else |all|, |all|;
    } else if before != "" {
      start, end := 0, if i < |all| then i else 0;
    } else {
      start, end := 0, |all|;
    }
  }

  /** A page is the start of what its cursor leaves: at most as many responses as asked for,
      20 if no number is and 100 at most. It is filled if more are left, and says whether
      they are, and its ends. */
  lemma {:induction false} PageSays(all: seq<Response>, opts: ListOptions)
    ensures var (page, rest) := (PageOf(all, opts), Rest(all, opts.after, opts.before));
      var limit := if opts.limit <= 0 then 20 else if opts.limit > 100 then 100 else opts.limit;
      && page.data <= rest && |page.data| <= limit
      && (page.hasMore <==> |page.data| < |rest|) && (page.hasMore ==> |page.data| == limit)
      && (page.data != [] ==> page.firstID == page.data[0].id && page.lastID == page.data[|page.data| - 1].id)
      && (page.data == [] ==> page.firstID == "" && page.lastID == "")
  {
    hide Rest;
  }

  lemma RestAfter(all: seq<Response>, k: nat)
    requires DistinctIds(all) && k < |all| && all[k].id != ""
    ensures Rest(all, all[k].id, "") == all[k + 1..]
  {
    assert IndexOf(all, all[k].id) == k;
  }

  lemma RestIsSuffix(all: seq<Response>, after: string) returns (start: nat)
    ensures start <= |all| && Rest(all, after, "") == all[start..]
  {
    start := |all| - |Rest(all, after, "")|;
  }

  /** The next page starts where this one ends. */
  lemma NextPage(all: seq<Response>, opts: ListOptions)
    requires DistinctIds(all) && (forall r | r in all :: r.id != "")
    requires opts.before == "" && PageOf(all, opts).hasMore
    ensures var page := PageOf(all, opts);
            && |page.data| == Clamp(opts.limit)
            && Rest(all, opts.after, "") == page.data + Rest(all, page.lastID, "")
  {
    var start := RestIsSuffix(all, opts.after);
    var end := start + Clamp(opts.limit);
    CutAt(all, start, end);
    RestAfter(all, end - 1);
  }

  lemma CutAt(all: seq<Response>, start: nat, end: nat)
    requires start < end <= |all|
    ensures all[start..][..end - start] == all[start..end]
    ensures all[start..] == all[start..end] + all[end..]
    ensures all[start..end][end - start - 1] == all[end - 1] && all[end - 1] in all
  {
  }

  /** The data of the pages a client gets by following after = LastID while HasMore. */
  ghost function Followed(all: seq<Response>, opts: ListOptions): seq<Response>
    requires DistinctIds(all) && (forall r | r in all :: r.id != "") && opts.before == ""
    decreases |Rest(all, opts.after, "")|
  {
    var page := PageOf(all, opts);
    if !page.hasMore then page.data
    else
      NextPage(all, opts);
      page.data + Followed(all, opts.(after := page.lastID))
  }

  lemma {:induction false} FollowedIsRest(all: seq<Response>, opts: ListOptions)
    requires DistinctIds(all) && (forall r | r in all :: r.id != "") && opts.before == ""
    ensures Followed(all, opts) == Rest(all, opts.after, "")
    decreases |Rest(all, opts.after, "")|
  {
    if PageOf(all, opts).hasMore {
      NextPage(all, opts);
      FollowedIsRest(all, opts.(after := PageOf(all, opts).lastID));
    }
  }

  /** Forward paging from no cursor ends, and yields every matching response once, in
      order, for any requested limit and any way of sorting. */
  lemma ForwardPagingIsComplete(all: seq<Response>, c: Contents, caller: Caller, opts: ListOptions)
    requires IsListing(all, c, caller, opts) && "" !in c.entries
    requires forall id | id in c.entries :: c.entries[id].resp.id == id
    requires opts.after == "" && opts.before == ""
    ensures DistinctIds(all) && "" !in (set r | r in all :: r.id)
    ensures Followed(all, opts) == all
  {
    ListingDistinct(all, c, caller, opts);
    FollowedIsRest(all, opts);
  }
}
