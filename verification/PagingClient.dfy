/** A client that pages forward through ListResponses of pkg/storage/memory/memory.go:
    it asks again with after = LastID while HasMore is true. */
module PagingClient {
  import opened StoreContents
  import opened Paging
  import opened MemoryStore
  import opened Sequences

  /** A cursor changes nothing about what is listed. */
  lemma {:induction false} CursorListsTheSame(all: seq<Response>, c: Contents, caller: Caller, opts: ListOptions, after: string)
    ensures IsListing(all, c, caller, opts.(after := after)) <==> IsListing(all, c, caller, opts)
  {
    var moved := opts.(after := after);
    assert forall id | id in c.entries :: Matches(caller, moved, c.entries[id]) <==> Matches(caller, opts, c.entries[id]);
    assert Selected(c, caller, moved) == Selected(c, caller, opts);
  }

  /** However each call collects and sorts, its page is cut from the one listing. */
  lemma {:induction false} CutFromOneListing(
    page: Page, cut: seq<Response>, listing: seq<Response>, c: Contents, caller: Caller, opts: ListOptions, after: string)
    requires IsListing(cut, c, caller, opts.(after := after)) && page == PageOf(cut, opts.(after := after))
    requires IsListing(listing, c, caller, opts)
    requires forall id | id in c.entries :: c.entries[id].resp.id == id
    ensures page == PageOf(listing, opts.(after := after))
  {
    CursorListsTheSame(cut, c, caller, opts, after);
    ListingsAgree(cut, listing, c, caller, opts);
  }

  predicate IsPage(page: Page, listing: seq<Response>, opts: ListOptions, after: string) {
    page == PageOf(listing, opts.(after := after))
  }

  /** What a page leaves is shorter, and comes next. */
  lemma {:induction false} TurnPage(page: Page, listing: seq<Response>, opts: ListOptions, after: string, read: seq<Response>)
    requires IsPage(page, listing, opts, after)
    requires DistinctIds(listing) && (forall r | r in listing :: r.id != "") && opts.before == ""
    requires read + Rest(listing, after, "") == listing
    ensures
      if page.hasMore then
        && read + page.data + Rest(listing, page.lastID, "") == listing
        && |Rest(listing, page.lastID, "")| < |Rest(listing, after, "")|
      else read + page.data == listing
  {
    var here := opts.(after := after);
    if page.hasMore {
      NextPage(listing, here);
      Assoc(read, page.data, Rest(listing, page.lastID, ""));
    } else {
      LastPage(listing, here);
    }
  }

  lemma {:induction false} LastPage(listing: seq<Response>, opts: ListOptions)
    requires opts.before == "" && !PageOf(listing, opts).hasMore
    ensures PageOf(listing, opts).data == Rest(listing, opts.after, "")
  {
  }

  /** One call: its page, and for the first one the listing it was cut from. */
  method FirstPage(store: Store, caller: Caller, opts: ListOptions) returns (page: Page, ghost listing: seq<Response>)
    requires store.Valid()
    ensures IsListing(listing, store.View(), caller, opts) && page == PageOf(listing, opts)
  {
    page := store.ListResponses(caller, opts);
    listing :| IsListing(listing, store.View(), caller, opts) && page == PageOf(listing, opts);
  }

  method LaterPage(store: Store, caller: Caller, opts: ListOptions, after: string, ghost listing: seq<Response>) returns (page: Page)
    requires store.Valid() && IsListing(listing, store.View(), caller, opts)
    ensures IsPage(page, listing, opts, after)
  {
    ghost var cut;
    page, cut := FirstPage(store, caller, opts.(after := after));
    store.AllIdsMatch();
    CutFromOneListing(page, cut, listing, store.View(), caller, opts, after);
  }

  lemma {:induction false} NothingRead(listing: seq<Response>, opts: ListOptions)
    requires opts.after == ""
    ensures opts.(after := "") == opts
    ensures [] + Rest(listing, "", "") == listing
  {
  }

  /** On a store that does not change the client comes to an end, and has then read every
      matching response exactly once, in order. */
  method FollowPages(store: Store, caller: Caller, opts: ListOptions) returns (read: seq<Response>)
    requires store.Valid() && "" !in store.entries
    requires opts.after == "" && opts.before == ""
    ensures IsListing(read, store.View(), caller, opts) && DistinctIds(read)
  {
    var page;
    ghost var listing;
    page, listing := FirstPage(store, caller, opts);
    store.AllIdsMatch();
    ListingDistinct(listing, store.View(), caller, opts);
    var after := "";
    read := [];
    NothingRead(listing, opts);
    while page.hasMore
      invariant IsPage(page, listing, opts, after)
      invariant read + Rest(listing, after, "") == listing
      decreases |Rest(listing, after, "")|
    {
      TurnPage(page, listing, opts, after, read);
      read := read + page.data;
      after := page.lastID;
      page := LaterPage(store, caller, opts, after, listing);
    }
    TurnPage(page, listing, opts, after, read);
    read := read + page.data;
  }
}
