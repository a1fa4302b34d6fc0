/** The store object of pkg/storage/memory/memory.go and background.go: a map of
    entries, each pointing to its element of a list, newest first. Every method runs
    under the store's lock. */
module MemoryStore {
  import opened Wrappers
  import opened ResponseState
  import opened StoreContents
  import opened Sorting
  import opened Paging

  /** A list element; its value is a response id. */
  class Element {
    const value: string

    constructor (value: string)
      ensures this.value == value
    {
      this.value := value;
    }
  }

  /** An entry of the map: its fields, and its pointer into the list. */
  datatype Slot = Slot(value: Entry, lruElem: Element)

  function Values(list: seq<Element>): (ids: seq<string>)
    ensures |ids| == |list| && forall i | 0 <= i < |list| :: ids[i] == list[i].value
  {
    seq(|list|, i requires 0 <= i < |list| => list[i].value)
  }

  /** The values of the entries. */
  function Snapshot(entries: map<string, Slot>): map<string, Entry> {
    map id | id in entries :: entries[id].value
  }

  lemma SnapshotAdd(entries: map<string, Slot>, id: string, slot: Slot)
    ensures Snapshot(entries[id := slot]) == Snapshot(entries)[id := slot.value]
  {
  }

  lemma SnapshotSize(entries: map<string, Slot>)
    ensures Snapshot(entries).Keys == entries.Keys && |Snapshot(entries)| == |entries|
  {
    assert Snapshot(entries).Keys == entries.Keys;
    assert |Snapshot(entries).Keys| == |entries.Keys|;
  }

  lemma SnapshotRemove(entries: map<string, Slot>, id: string)
    ensures Snapshot(entries - {id}) == Snapshot(entries) - {id}
  {
  }

  /** Each entry points to its own element of the list. */
  ghost predicate PointsInto(slot: Slot, id: string, list: seq<Element>) {
    slot.lruElem in list && slot.lruElem.value == id
  }

  ghost predicate Linked(entries: map<string, Slot>, list: seq<Element>) {
    forall id | id in entries :: PointsInto(entries[id], id, list)
  }

  lemma LinkedAdd(entries: map<string, Slot>, list: seq<Element>, id: string, slot: Slot)
    requires Linked(entries, list) && slot.lruElem.value == id
    ensures Linked(entries[id := slot], [slot.lruElem] + list)
    ensures Values([slot.lruElem] + list) == [id] + Values(list)
  {
    forall other | other in entries && other != id
      ensures PointsInto(entries[other], other, [slot.lruElem] + list)
    {
      assert PointsInto(entries[other], other, list);
    }
  }

  lemma {:induction false} LinkedSame(entries: map<string, Slot>, list: seq<Element>, id: string, value: Entry)
    requires Linked(entries, list) && id in entries
    ensures Linked(entries[id := Slot(value, entries[id].lruElem)], list)
  {
    assert PointsInto(entries[id], id, list);
  }

  /** An element of another value is still there when the one at k is gone. */
  lemma {:induction false} ElementStays(list: seq<Element>, k: nat, elem: Element)
    requires k < |list| && elem in list && elem.value != list[k].value
    ensures elem in list[..k] + list[k + 1..]
  {
    var i :| 0 <= i < |list| && list[i] == elem;
    var rest := list[..k] + list[k + 1..];
    assert if i < k then rest[i] == elem else rest[i - 1] == elem;
  }

  /** Taking the element at k out of the list, and its entry out of the map. */
  lemma LinkedRemove(entries: map<string, Slot>, list: seq<Element>, k: nat)
    requires Linked(entries, list) && Distinct(Values(list)) && k < |list|
    ensures Linked(entries - {list[k].value}, list[..k] + list[k + 1..])
    ensures Values(list[..k] + list[k + 1..]) == Without(Values(list), {list[k].value})
  {
    WithoutAt(Values(list), k);
    var id, rest := list[k].value, list[..k] + list[k + 1..];
    assert Values(rest) == Values(list)[..k] + Values(list)[k + 1..];
    forall other | other in entries && other != id
      ensures PointsInto(entries[other], other, rest)
    {
      assert PointsInto(entries[other], other, list);
      ElementStays(list, k, entries[other].lruElem);
    }
  }

  class Store {
    var entries: map<string, Slot>
    var lruList: seq<Element>
    const maxSize: int

    constructor (maxSize: int)
      ensures Valid() && this.maxSize == maxSize && View() == EMPTY
    {
      entries, lruList, this.maxSize := map[], [], maxSize;
    }

    /** What the store holds. */
    ghost function View(): Contents
      reads this
    {
      Contents(Snapshot(entries), Values(lruList))
    }

    ghost predicate Valid()
      reads this
    {
      Linked(entries, lruList) && Coherent(View(), maxSize)
    }

    lemma IdsMatch(id: string)
      requires Valid() && id in entries
      ensures entries[id].value.resp.id == id
    {
      assert View().entries[id].resp.id == id;
    }

    lemma AllIdsMatch()
      requires Valid()
      ensures forall id | id in View().entries :: View().entries[id].resp.id == id
      ensures View().entries.Keys == entries.Keys
    {
    }

    /** Takes the list element at k and its entry away. */
    method RemoveAt(k: nat)
      requires Valid() && k < |lruList|
      modifies this
      ensures Valid() && View() == Removed(old(View()), {old(lruList)[k].value})
      ensures entries == old(entries) - {old(lruList)[k].value}
    {
      var id := lruList[k].value;
      CoherentIds(View(), maxSize);
      RemovedCoherent(View(), maxSize, {id});
      LinkedRemove(entries, lruList, k);
      SnapshotRemove(entries, id);
      lruList := lruList[..k] + lruList[k + 1..];
      entries := entries - {id};
    }

    method EvictOldest()
      requires Valid()
      modifies this
      ensures Valid() && View() == Evicted(old(View()))
    {
      if lruList == [] {
        return;
      }
      var n := |lruList| - 1;
      WithoutAt(Values(lruList), n);
      assert Values(lruList)[..n] + Values(lruList)[n + 1..] == Values(lruList)[..n];
      RemoveAt(n);
    }

    method AddFront(entry: Entry)
      requires Valid() && entry.resp.id !in entries && (maxSize > 0 ==> |entries| < maxSize)
      modifies this
      ensures Valid()
      ensures View() == Contents(old(View()).entries[entry.resp.id := entry], [entry.resp.id] + old(View()).order)
    {
      var id := entry.resp.id;
      SnapshotSize(entries);
      AddedCoherent(View(), maxSize, entry);
      var elem := new Element(id);
      var slot := Slot(entry, elem);
      LinkedAdd(entries, lruList, id, slot);
      SnapshotAdd(entries, id, slot);
      lruList := [elem] + lruList;
      entries := entries[id := slot];
    }

    /** Evicts if the store is full. */
    method MakeRoom()
      requires Valid()
      modifies this
      ensures Valid() && (maxSize > 0 ==> |entries| < maxSize)
      ensures View() == (if maxSize > 0 && |old(View()).entries| >= maxSize then Evicted(old(View())) else old(View()))
      ensures forall id | id in entries :: id in old(entries)
    {
      SnapshotSize(entries);
      SaveFits(View(), maxSize);
      if maxSize > 0 && |entries| >= maxSize {
        EvictOldest();
      }
      SnapshotSize(entries);
    }

    method SaveResponse(resp: Response, caller: Caller) returns (ok: bool)
      requires Valid()
      modifies this
      ensures Valid()
      ensures ok <==> resp.id !in old(entries)
      ensures View() == if ok then Saved(old(View()), maxSize, NewEntry(resp, caller.tenant, caller.owner)) else old(View())
    {
      if resp.id in entries {
        return false;
      }
      MakeRoom();
      AddFront(NewEntry(resp, caller.tenant, caller.owner));
      return true;
    }

    /** A change to one entry's value. */
    method SetValue(id: string, value: Entry)
      requires Valid() && id in entries && value.resp.id == id
      modifies this
      ensures Valid() && View() == old(View()).(entries := old(View()).entries[id := value])
    {
      SameKeysCoherent(View(), maxSize, id, value);
      var slot := Slot(value, entries[id].lruElem);
      SnapshotAdd(entries, id, slot);
      LinkedSame(entries, lruList, id, value);
      entries := entries[id := slot];
    }

    method UpdateResponse(id: string, update: Update) returns (r: UpdateResult)
      requires Valid()
      modifies this
      ensures Valid()
      ensures (View(), r) == Updated(old(View()), id, update)
      ensures UpdateMeans(old(View()), View(), id, update, r)
    {
      hide UpdateMeans;
      UpdatedMeans(View(), id, update);
      if id !in entries {
        return NotFound;
      }
      var e := entries[id].value;
      if update.status.Some? && !ValidTransition(e.resp.status, update.status.value) {
        return BadTransition;
      }
      e := SetFields(e, update);
      IdsMatch(id);
      SetValue(id, e);
      return Done;
    }

    static method SetFields(entry: Entry, update: Update) returns (e: Entry)
      ensures e == Applied(entry, update)
    {
      e := entry;
      if update.status.Some? {
        e := e.(resp := e.resp.(status := update.status.value));
      }
      if update.output.Some? {
        e := e.(resp := e.resp.(output := update.output));
      }
      if update.error.Some? {
        e := e.(resp := e.resp.(error := update.error));
      }
      if update.usage.Some? {
        e := e.(resp := e.resp.(usage := update.usage));
      }
      if update.completedAt.Some? {
        e := e.(resp := e.resp.(completedAt := update.completedAt));
      }
      if update.workerHeartbeat.Some? {
        e := e.(workerHeartbeat := update.workerHeartbeat);
      }
    }

    method DeleteResponse(caller: Caller, id: string, now: int) returns (ok: bool)
      requires Valid()
      modifies this
      ensures Valid()
      ensures View() == Deleted(old(View()), caller, id, now)
      ensures ok <==> id in entries && Visible(caller, old(View()).entries[id])
      ensures DeleteMeans(old(View()), View(), id, now, ok)
    {
      hide DeleteMeans;
      DeletedMeans(View(), caller, id, now);
      if id !in entries {
        return false;
      }
      var e := entries[id].value;
      if caller.tenant != "" && e.tenantID != caller.tenant {
        return false;
      }
      if !OwnerAllowed(caller, e.owner, false) {
        return false;
      }
      IdsMatch(id);
      SetValue(id, e.(deletedAt := Some(now)));
      return true;
    }

    method SaveBackgroundRequest(id: string, reqData: string)
      requires Valid()
      modifies this
      ensures Valid()
      ensures View() == if id !in old(View()).entries then old(View())
                        else old(View()).(entries := old(View()).entries[id := old(View()).entries[id].(backgroundReq := Some(reqData))])
    {
      if id in entries {
        IdsMatch(id);
        SetValue(id, entries[id].value.(backgroundReq := Some(reqData)));
      }
    }

    method FindOldestQueued() returns (oldest: Option<string>)
      requires Valid()
      ensures oldest.None? ==> forall id | id in View().entries :: !Claimable(View().entries[id])
      ensures oldest.Some? ==> NextToClaim(View(), oldest.value)
    {
      oldest := None;
      var unread := entries.Keys;
      while unread != {}
        invariant unread <= entries.Keys
        invariant oldest.Some? ==> oldest.value in entries && Claimable(entries[oldest.value].value)
        invariant forall id | id in entries && id !in unread && Claimable(entries[id].value) ::
            oldest.Some? && oldest.value in entries
            && entries[oldest.value].value.resp.createdAt <= entries[id].value.resp.createdAt
      {
        var id :| id in unread;
        unread := unread - {id};
        var e := entries[id].value;
        if e.deletedAt.Some? {
          continue;
        }
        if e.resp.status != Queued || !e.resp.background {
          continue;
        }
        if oldest.None? || e.resp.createdAt < entries[oldest.value].value.resp.createdAt {
          oldest := Some(id);
        }
      }
    }

    /** Returns the claimed response and its request. */
    method ClaimQueuedResponse(workerID: string, now: int) returns (claimed: Option<(Response, Option<string>)>)
      requires Valid()
      modifies this
      ensures Valid()
      ensures claimed.None? ==> View() == old(View()) && forall id | id in View().entries :: !Claimable(View().entries[id])
      ensures claimed.Some? ==>
                var (resp, req) := claimed.value;
                && NextToClaim(old(View()), resp.id)
                && View() == StoreContents.Claimed(old(View()), resp.id, workerID, now)
                && ClaimMeans(old(View()), View(), resp.id, workerID, now)
                && resp == View().entries[resp.id].resp && req == View().entries[resp.id].backgroundReq
    {
      var oldest := FindOldestQueued();
      if oldest.None? {
        return None;
      }
      var id := oldest.value;
      var e := ClaimedEntry(entries[id].value, workerID, now);
      ClaimedMeans(View(), id, workerID, now);
      IdsMatch(id);
      SetValue(id, e);
      return Some((e.resp, e.backgroundReq));
    }

    /** Removes one entry through its pointer into the list. */
    method RemoveEntry(id: string)
      requires Valid() && id in entries
      modifies this
      ensures Valid() && View() == Removed(old(View()), {id})
      ensures entries == old(entries) - {id}
    {
      var elem := entries[id].lruElem;
      assert PointsInto(entries[id], id, lruList);
      var k := 0;
      while lruList[k] != elem
        invariant 0 <= k < |lruList| && elem in lruList[k..]
        decreases |lruList| - k
      {
        k := k + 1;
      }
      RemoveAt(k);
    }

    /** Deletes one entry if it is a terminal background response past the cutoff. */
    method DeleteIfExpired(id: string, cutoff: int) returns (deleted: bool)
      requires Valid() && id in entries
      modifies this
      ensures Valid() && (deleted <==> Expired(old(View()).entries[id], cutoff))
      ensures View() == if deleted then Removed(old(View()), {id}) else old(View())
      ensures entries == if deleted then old(entries) - {id} else old(entries)
    {
      var e := entries[id].value;
      if !e.resp.background {
        return false;
      }
      match e.resp.status {
        case Completed | Failed | Cancelled =>
        case _ =>
          return false;
      }
      if e.resp.createdAt < cutoff {
        RemoveEntry(id);
        return true;
      }
      return false;
    }

    /** Visits the entries in any order and stops at the batch size. */
    method CleanupExpired(cutoff: int, batchSize: int) returns (deleted: nat, ghost gone: set<string>)
      requires Valid()
      modifies this
      ensures Valid() && View() == Removed(old(View()), gone)
      ensures deleted == |gone| <= (if batchSize > 0 then batchSize else 0)
      ensures forall id | id in gone :: id in old(View()).entries && Expired(old(View()).entries[id], cutoff)
      ensures deleted < batchSize ==> forall id | id in View().entries :: !Expired(View().entries[id], cutoff)
    {
      deleted, gone := 0, {};
      ghost var c := View();
      RemovedNone(c);
      var unread := entries.Keys;
      while unread != {}
        invariant unread <= entries.Keys && Valid()
        invariant Swept(c, View(), gone, unread, cutoff)
        invariant deleted == |gone| <= (if batchSize > 0 then batchSize else 0)
      {
        if deleted >= batchSize {
          return;
        }
        var id :| id in unread;
        SweepStep(c, View(), gone, unread, id, cutoff);
        unread := unread - {id};
        var removed := DeleteIfExpired(id, cutoff);
        if removed {
          gone := gone + {id};
          deleted := deleted + 1;
        }
      }
    }

    /** The ids of claimed background responses without a heartbeat since `cutoff`. */
    method FindStaleResponses(cutoff: int) returns (stale: seq<string>)
      requires Valid()
      ensures forall id :: id in stale <==>
                id in View().entries && Stale(View().entries[id], cutoff)
    {
      stale := [];
      var unread := entries.Keys;
      while unread != {}
        invariant unread <= entries.Keys
        invariant forall id :: id in stale <==> id in entries && id !in unread && Stale(entries[id].value, cutoff)
      {
        var id :| id in unread;
        unread := unread - {id};
        var e := entries[id].value;
        if e.deletedAt.Some? {
          continue;
        }
        if e.resp.status != InProgress || !e.resp.background {
          continue;
        }
        if e.workerHeartbeat.Some? && e.workerHeartbeat.value < cutoff {
          assert View().entries[id].resp.id == id;
          stale := stale + [e.resp.id];
        }
      }
    }

    /** Whether one entry is listed. */
    static method IsMatch(caller: Caller, opts: ListOptions, e: Entry) returns (listed: bool)
      ensures listed <==> Matches(caller, opts, e)
    {
      if e.deletedAt.Some? {
        return false;
      }
      if caller.tenant != "" && e.tenantID != caller.tenant {
        return false;
      }
      if caller.owner != "" && !caller.admin && e.owner != "" && e.owner != caller.owner {
        return false;
      }
      if opts.model != "" && e.resp.model != opts.model {
        return false;
      }
      if opts.status.Some? && e.resp.status != opts.status.value {
        return false;
      }
      if opts.background.Some? && e.resp.background != opts.background.value {
        return false;
      }
      return true;
    }

    /** The matching responses, in the map's order. */
    method CollectMatches(caller: Caller, opts: ListOptions) returns (matches: seq<Response>)
      requires Valid()
      ensures multiset(matches) == multiset(Selected(View(), caller, opts))
    {
      matches := [];
      var unread := entries.Keys;
      ghost var c := View();
      CoherentIds(c, maxSize);
      while unread != {}
        invariant unread <= c.entries.Keys
        invariant multiset(matches) == multiset(SelectedSoFar(c, caller, opts, unread))
      {
        var id :| id in unread;
        SelectOne(c, caller, opts, unread, id);
        unread := unread - {id};
        var e := entries[id].value;
        assert e == c.entries[id];
        var listed := IsMatch(caller, opts, e);
        matches := if listed then matches + [e.resp] else matches;
      }
      assert SelectedSoFar(c, caller, opts, {}) == Selected(c, caller, opts);
    }

    method ListResponses(caller: Caller, opts: ListOptions) returns (page: Page)
      requires Valid()
      ensures exists all :: IsListing(all, View(), caller, opts) && page == PageOf(all, opts)
    {
      var matches := CollectMatches(caller, opts);
      OrderIsPreorder(opts.asc);
      matches := Sort(matches, Order(opts.asc));
      assert IsListing(matches, View(), caller, opts);
      page := Paginate(matches, opts);
    }

    static method ApplyCursor(all: seq<Response>, opts: ListOptions) returns (matches: seq<Response>)
      ensures matches == Rest(all, opts.after, opts.before)
    {
      matches := all;
      if opts.after != "" {
        var idx := IndexOf(matches, opts.after);
        matches := if idx < |matches| then matches[idx + 1..] else [];
      } else if opts.before != "" {
        var idx := IndexOf(matches, opts.before);
        matches := if 0 < idx < |matches| then matches[..idx] else [];
      }
    }

    static method Paginate(all: seq<Response>, opts: ListOptions) returns (page: Page)
      ensures page == PageOf(all, opts)
    {
      var matches := ApplyCursor(all, opts);
      var limit := opts.limit;
      if limit <= 0 {
        limit := 20;
      }
      if limit > 100 {
        limit := 100;
      }
      var hasMore := |matches| > limit;
      if hasMore {
        matches := matches[..limit];
      }
      var firstID, lastID := "", "";
      if |matches| > 0 {
        firstID, lastID := matches[0].id, matches[|matches| - 1].id;
      }
      page := Page(matches, hasMore, firstID, lastID);
    }
  }
}
