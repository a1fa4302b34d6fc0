/** Response statuses and their transitions (pkg/api/state.go). */
module ResponseState {
  /** `Unset` is the empty status of a response that has none yet. */
  datatype Status = Unset | Queued | InProgress | Completed | Incomplete | Failed | Cancelled | RequiresAction

  function Allowed(from: Status): seq<Status> {
    match from
    case Unset => [Queued, InProgress]
    case Queued => [InProgress, Cancelled]
    case InProgress => [Completed, Failed, Cancelled, RequiresAction]
    case _ => []
  }

  predicate ValidTransition(from: Status, to: Status) {
    to in Allowed(from)
  }

  predicate IsTerminal(s: Status) {
    s == Completed || s == Incomplete || s == Failed || s == Cancelled || s == RequiresAction
  }

  /** The terminal statuses are those with no way out, and no status is its own successor. */
  lemma TerminalIsFinal(from: Status, to: Status)
    ensures IsTerminal(from) <==> forall s :: !ValidTransition(from, s)
    ensures ValidTransition(from, to) ==> from != to && to != Unset && (to == Queued ==> from == Unset)
  {
    assert from.Unset? || from.Queued? ==> ValidTransition(from, InProgress);
    assert from.InProgress? ==> ValidTransition(from, Completed);
  }

  /** The ways into each status: nothing becomes incomplete by a transition, and work ends
      only when it has begun, unless it is cancelled. */
  lemma {:induction false} WaysInto(from: Status, to: Status)
    ensures to.Unset? || to.Incomplete? ==> !ValidTransition(from, to)
    ensures to.Queued? ==> (ValidTransition(from, to) <==> from.Unset?)
    ensures to.InProgress? ==> (ValidTransition(from, to) <==> from.Unset? || from.Queued?)
    ensures to.Cancelled? ==> (ValidTransition(from, to) <==> from.Queued? || from.InProgress?)
    ensures to.Completed? || to.Failed? || to.RequiresAction? ==> (ValidTransition(from, to) <==> from.InProgress?)
  {
  }
}

/** The contents of the in-memory store (pkg/storage/memory) as values, and what each
    operation makes of them. */
module StoreContents {
  import opened Sequences
  import opened Wrappers
  import opened ResponseState
  import opened Api

  datatype Response = Response(
    id: string, status: Status, background: bool, createdAt: int, model: string,
    output: Option<string>, error: Option<string>, usage: Option<Usage>, completedAt: Option<int>)

  datatype Entry = Entry(
    resp: Response, tenantID: string, owner: string, deletedAt: Option<int>,
    backgroundReq: Option<string>, workerID: string, workerHeartbeat: Option<int>)

  function NewEntry(resp: Response, tenantID: string, owner: string): Entry {
    Entry(resp, tenantID, owner, None, None, "", None)
  }

  /** `order` lists the ids from the most recently saved to the oldest. */
  datatype Contents = Contents(entries: map<string, Entry>, order: seq<string>)

  const EMPTY: Contents := Contents(map[], [])

  predicate Distinct(ids: seq<string>) {
    forall i, j | 0 <= i < j < |ids| :: ids[i] != ids[j]
  }

  /** The list and the map hold the same ids, and no more than the limit. */
  ghost predicate Coherent(c: Contents, maxSize: int) {
    && Distinct(c.order)
    && (forall id :: id in c.order <==> id in c.entries)
    && (forall id | id in c.entries :: c.entries[id].resp.id == id)
    && (maxSize > 0 ==> |c.entries| <= maxSize)
  }

  lemma CoherentIds(c: Contents, maxSize: int)
    requires Coherent(c, maxSize)
    ensures Distinct(c.order)
    ensures forall id | id in c.entries :: c.entries[id].resp.id == id
  {
  }

  lemma {:induction false} DistinctSize(ids: seq<string>)
    requires Distinct(ids)
    ensures |set id | id in ids| == |ids|
  {
    if ids != [] {
      var front, last := ids[..|ids| - 1], ids[|ids| - 1];
      DistinctSize(front);
      assert (set id | id in ids) == (set id | id in front) + {last};
    }
  }

  lemma OrderSize(c: Contents, maxSize: int)
    requires Coherent(c, maxSize)
    ensures |c.order| == |c.entries|
  {
    DistinctSize(c.order);
    assert (set id | id in c.order) == c.entries.Keys;
  }

  // ----- Saving -----

  function Evicted(c: Contents): Contents {
    if c.order == [] then c
    else Contents(c.entries - {c.order[|c.order| - 1]}, c.order[..|c.order| - 1])
  }

  function Saved(c: Contents, maxSize: int, e: Entry): Contents {
    var kept := if maxSize > 0 && |c.entries| >= maxSize then Evicted(c) else c;
    Contents(kept.entries[e.resp.id := e], [e.resp.id] + kept.order)
  }

  lemma LastOut(ids: seq<string>)
    requires Distinct(ids) && ids != []
    ensures var front, last := ids[..|ids| - 1], ids[|ids| - 1];
            Distinct(front) && last in ids && forall id :: id in front <==> id in ids && id != last
  {
    assert ids == ids[..|ids| - 1] + [ids[|ids| - 1]];
  }

  lemma EvictedCoherent(c: Contents, maxSize: int)
    requires Coherent(c, maxSize)
    ensures Coherent(Evicted(c), maxSize)
    ensures c.order != [] ==> |Evicted(c).entries| == |c.entries| - 1
  {
    if c.order != [] {
      LastOut(c.order);
      assert Evicted(c).entries.Keys == c.entries.Keys - {c.order[|c.order| - 1]};
    }
  }

  lemma DistinctCons(id: string, ids: seq<string>)
    requires Distinct(ids) && id !in ids
    ensures Distinct([id] + ids)
  {
  }

  lemma SavedCoherent(c: Contents, maxSize: int, e: Entry)
    requires Coherent(c, maxSize) && e.resp.id !in c.entries
    ensures Coherent(Saved(c, maxSize, e), maxSize)
  {
    OrderSize(c, maxSize);
    EvictedCoherent(c, maxSize);
    var kept := if maxSize > 0 && |c.entries| >= maxSize then Evicted(c) else c;
    AddedCoherent(kept, maxSize, e);
  }

  /** After an eviction, if one was due, there is room for one more. */
  lemma SaveFits(c: Contents, maxSize: int)
    requires Coherent(c, maxSize)
    ensures maxSize > 0 && |c.entries| >= maxSize ==> |Evicted(c).entries| < maxSize
    ensures forall id | id in Evicted(c).entries :: id in c.entries
  {
    OrderSize(c, maxSize);
    EvictedCoherent(c, maxSize);
  }

  lemma AddedCoherent(c: Contents, maxSize: int, e: Entry)
    requires Coherent(c, maxSize) && e.resp.id !in c.entries
    requires maxSize > 0 ==> |c.entries| < maxSize
    ensures Coherent(Contents(c.entries[e.resp.id := e], [e.resp.id] + c.order), maxSize)
  {
    DistinctCons(e.resp.id, c.order);
    assert c.entries[e.resp.id := e].Keys == c.entries.Keys + {e.resp.id};
  }

  function SaveAll(c: Contents, maxSize: int, es: seq<Entry>): Contents {
    if es == [] then c else Saved(SaveAll(c, maxSize, es[..|es| - 1]), maxSize, es[|es| - 1])
  }

  function Kept(n: nat, maxSize: int): nat {
    if 0 < maxSize < n then maxSize else n
  }

  /** The i-th newest of the saved responses is in its place, with its entry. */
  ghost predicate InPlace(c: Contents, es: seq<Entry>, i: nat) {
    && i < |c.order| && i < |es|
    && var e := es[|es| - 1 - i];
       c.order[i] == e.resp.id && e.resp.id in c.entries && c.entries[e.resp.id] == e
  }

  ghost predicate HoldsNewest(c: Contents, maxSize: int, es: seq<Entry>) {
    |c.order| == Kept(|es|, maxSize) && forall i: nat | i < |c.order| :: InPlace(c, es, i)
  }

  lemma SaveKeepsPlace(c: Contents, maxSize: int, es: seq<Entry>, i: nat)
    requires es != [] && Coherent(c, maxSize) && es[|es| - 1].resp.id !in c.entries
    requires i < |Saved(c, maxSize, es[|es| - 1]).order| && i < |es|
    requires i > 0 ==> InPlace(c, es[..|es| - 1], i - 1)
    ensures InPlace(Saved(c, maxSize, es[|es| - 1]), es, i)
  {
    OrderSize(c, maxSize);
    if i > 0 {
      assert es[..|es| - 1][|es| - 1 - i] == es[|es| - 1 - i];
      assert i < |c.order| ==> c.order[i - 1] != c.order[|c.order| - 1];
    }
  }

  lemma SaveOneMore(c: Contents, maxSize: int, es: seq<Entry>)
    requires es != [] && Coherent(c, maxSize) && HoldsNewest(c, maxSize, es[..|es| - 1])
    requires es[|es| - 1].resp.id !in c.entries
    ensures HoldsNewest(Saved(c, maxSize, es[|es| - 1]), maxSize, es)
  {
    OrderSize(c, maxSize);
    var s := Saved(c, maxSize, es[|es| - 1]);
    assert |s.order| == Kept(|es|, maxSize);
    forall i: nat | i < |s.order|
      ensures InPlace(s, es, i)
    {
      SaveKeepsPlace(c, maxSize, es, i);
    }
  }

  lemma OnlySavedIds(c: Contents, maxSize: int, es: seq<Entry>, id: string)
    requires Coherent(c, maxSize) && HoldsNewest(c, maxSize, es)
    ensures id in c.entries ==> exists i :: 0 <= i < |es| && es[i].resp.id == id
  {
    if id in c.entries {
      assert id in c.order;
      var i :| 0 <= i < |c.order| && c.order[i] == id;
      assert InPlace(c, es, i);
    }
  }

  predicate IdFresh(id: string, es: seq<Entry>) {
    forall i | 0 <= i < |es| :: es[i].resp.id != id
  }

  /** No saved response reuses an id. */
  predicate FreshIds(es: seq<Entry>) {
    es == [] || (FreshIds(es[..|es| - 1]) && IdFresh(es[|es| - 1].resp.id, es[..|es| - 1]))
  }

  ghost predicate KeepsNewest(c: Contents, maxSize: int, es: seq<Entry>) {
    Coherent(c, maxSize) && HoldsNewest(c, maxSize, es)
  }

  lemma SaveStep(c: Contents, maxSize: int, es: seq<Entry>)
    requires es != [] && KeepsNewest(c, maxSize, es[..|es| - 1])
    requires IdFresh(es[|es| - 1].resp.id, es[..|es| - 1])
    ensures KeepsNewest(Saved(c, maxSize, es[|es| - 1]), maxSize, es)
  {
    OnlySavedIds(c, maxSize, es[..|es| - 1], es[|es| - 1].resp.id);
    SavedCoherent(c, maxSize, es[|es| - 1]);
    SaveOneMore(c, maxSize, es);
  }

  /** Saves alone leave exactly the last maxSize saved responses, newest first. */
  lemma {:induction false} SavesKeepTheNewest(maxSize: int, es: seq<Entry>)
    requires FreshIds(es)
    ensures KeepsNewest(SaveAll(EMPTY, maxSize, es), maxSize, es)
  {
    if es != [] {
      SavesKeepTheNewest(maxSize, es[..|es| - 1]);
      SaveStep(SaveAll(EMPTY, maxSize, es[..|es| - 1]), maxSize, es);
    }
  }

  // ----- Updating and deleting -----

  datatype Update = Update(
    status: Option<Status>, output: Option<string>, error: Option<string>,
    usage: Option<Usage>, completedAt: Option<int>, workerHeartbeat: Option<int>)

  datatype UpdateResult = Done | NotFound | BadTransition

  function Merge<T>(newer: Option<T>, older: Option<T>): Option<T> {
    if newer.Some? then newer else older
  }

  function Applied(e: Entry, u: Update): Entry {
    e.(resp := e.resp.(status := u.status.GetOr(e.resp.status),
                       output := Merge(u.output, e.resp.output),
                       error := Merge(u.error, e.resp.error),
                       usage := Merge(u.usage, e.resp.usage),
                       completedAt := Merge(u.completedAt, e.resp.completedAt)),
       workerHeartbeat := Merge(u.workerHeartbeat, e.workerHeartbeat))
  }

  /** Each field that an update can give is the given one, or as before if none is given;
      no other field changes. */
  predicate TakesUpdate(before: Entry, after: Entry, u: Update) {
    && (u.status.Some? ==> after.resp.status == u.status.value) && (u.status.None? ==> after.resp.status == before.resp.status)
    && (u.output.Some? ==> after.resp.output == u.output) && (u.output.None? ==> after.resp.output == before.resp.output)
    && (u.error.Some? ==> after.resp.error == u.error) && (u.error.None? ==> after.resp.error == before.resp.error)
    && (u.usage.Some? ==> after.resp.usage == u.usage) && (u.usage.None? ==> after.resp.usage == before.resp.usage)
    && (u.completedAt.Some? ==> after.resp.completedAt == u.completedAt)
    && (u.completedAt.None? ==> after.resp.completedAt == before.resp.completedAt)
    && (u.workerHeartbeat.Some? ==> after.workerHeartbeat == u.workerHeartbeat)
    && (u.workerHeartbeat.None? ==> after.workerHeartbeat == before.workerHeartbeat)
    && SameBut(before, after)
  }

  /** The fields that no update can change are the same. */
  predicate SameBut(before: Entry, after: Entry) {
    && after.resp.id == before.resp.id && after.resp.background == before.resp.background
    && after.resp.createdAt == before.resp.createdAt && after.resp.model == before.resp.model
    && after.tenantID == before.tenantID && after.owner == before.owner && after.deletedAt == before.deletedAt
    && after.backgroundReq == before.backgroundReq && after.workerID == before.workerID
  }

  /** The list and all other entries are the same. */
  ghost predicate OnlyChanges(before: Contents, after: Contents, id: string) {
    && after.order == before.order && after.entries.Keys == before.entries.Keys && id in before.entries
    && forall other | other in before.entries && other != id :: after.entries[other] == before.entries[other]
  }


  /** A rejected update changes nothing at all. */
  function Updated(c: Contents, id: string, u: Update): (Contents, UpdateResult) {
    if id !in c.entries then (c, NotFound)
    else if u.status.Some? && !ValidTransition(c.entries[id].resp.status, u.status.value) then (c, BadTransition)
    else (c.(entries := c.entries[id := Applied(c.entries[id], u)]), Done)
  }

  /** What an update with this result has done to a store. */
  ghost predicate UpdateMeans(before: Contents, after: Contents, id: string, u: Update, r: UpdateResult) {
    && (r == NotFound <==> id !in before.entries)
    && (r == BadTransition <==>
          id in before.entries && u.status.Some? && u.status.value !in Allowed(before.entries[id].resp.status))
    && (r != Done ==> after == before)
    && (r == Done ==> OnlyChanges(before, after, id) && TakesUpdate(before.entries[id], after.entries[id], u))
  }

  lemma {:induction false} UpdatedMeans(c: Contents, id: string, u: Update)
    ensures var (after, r) := Updated(c, id, u); UpdateMeans(c, after, id, u, r)
  {
    var (after, r) := Updated(c, id, u);
    if r == Done {
      assert after.entries.Keys == c.entries.Keys;
    }
  }

  datatype Caller = Caller(tenant: string, owner: string, admin: bool)

  predicate OwnerAllowed(caller: Caller, storedOwner: string, writeOp: bool) {
    caller.owner == "" || (!writeOp && caller.admin) || storedOwner == "" || caller.owner == storedOwner
  }

  predicate Visible(caller: Caller, e: Entry) {
    (caller.tenant == "" || e.tenantID == caller.tenant) && OwnerAllowed(caller, e.owner, false)
  }

  /** A new entry holds its response and its caller, and nothing has happened to it. */
  lemma {:induction false} NewEntryHolds(resp: Response, tenantID: string, owner: string)
    ensures var e := NewEntry(resp, tenantID, owner);
      && e.resp == resp && e.tenantID == tenantID && e.owner == owner
      && e.deletedAt.None? && e.backgroundReq.None? && e.workerID == "" && e.workerHeartbeat.None?
  {
  }

  /** Whom an entry is shown to: its tenant, and there its owner, an administrator, or
      anyone if the caller or the entry has no owner. */
  lemma {:induction false} VisibleExactlyWhen(caller: Caller, e: Entry)
    ensures Visible(caller, e) <==>
      && caller.tenant in {"", e.tenantID}
      && (caller.admin || caller.owner == "" || e.owner in {"", caller.owner})
  {
  }

  function Deleted(c: Contents, caller: Caller, id: string, now: int): Contents {
    if id in c.entries && Visible(caller, c.entries[id])
    then c.(entries := c.entries[id := c.entries[id].(deletedAt := Some(now))])
    else c
  }

  /** A delete marks the entry, and no other, or does nothing. */
  ghost predicate DeleteMeans(before: Contents, after: Contents, id: string, now: int, ok: bool) {
    if ok then OnlyChanges(before, after, id) && after.entries[id] == before.entries[id].(deletedAt := Some(now))
    else after == before
  }

  lemma {:induction false} DeletedMeans(c: Contents, caller: Caller, id: string, now: int)
    ensures DeleteMeans(c, Deleted(c, caller, id, now), id, now, id in c.entries && Visible(caller, c.entries[id]))
  {
    if id in c.entries && Visible(caller, c.entries[id]) {
      assert Deleted(c, caller, id, now).entries.Keys == c.entries.Keys;
    }
  }

  lemma SameKeysCoherent(c: Contents, maxSize: int, id: string, e: Entry)
    requires Coherent(c, maxSize) && id in c.entries && e.resp.id == id
    ensures Coherent(c.(entries := c.entries[id := e]), maxSize)
  {
    assert c.entries[id := e].Keys == c.entries.Keys;
  }

  // ----- Claiming -----

  predicate Claimable(e: Entry) {
    e.deletedAt.None? && e.resp.status == Queued && e.resp.background
  }

  /** The queued background response that was created first, or one of them. */
  ghost predicate NextToClaim(c: Contents, id: string) {
    && id in c.entries && Claimable(c.entries[id])
    && forall other | other in c.entries && Claimable(c.entries[other]) ::
         c.entries[id].resp.createdAt <= c.entries[other].resp.createdAt
  }

  function ClaimedEntry(e: Entry, workerID: string, now: int): Entry {
    e.(resp := e.resp.(status := InProgress), workerID := workerID, workerHeartbeat := Some(now))
  }

  function Claimed(c: Contents, id: string, workerID: string, now: int): Contents
    requires id in c.entries
  {
    c.(entries := c.entries[id := ClaimedEntry(c.entries[id], workerID, now)])
  }

  /** The earliest queued background response is in progress, with its worker and a first
      heartbeat; nothing else has changed. */
  ghost predicate ClaimMeans(before: Contents, after: Contents, id: string, workerID: string, now: int) {
    && OnlyChanges(before, after, id)
    && var (e, claimed) := (before.entries[id], after.entries[id]);
       && e.resp.status == Queued && e.resp.background && e.deletedAt.None?
       && (forall other | other in before.entries && before.entries[other].resp.status == Queued
             && before.entries[other].resp.background && before.entries[other].deletedAt.None? ::
             e.resp.createdAt <= before.entries[other].resp.createdAt)
       && claimed.resp == e.resp.(status := InProgress) && claimed.workerID == workerID && claimed.workerHeartbeat == Some(now)
       && claimed.tenantID == e.tenantID && claimed.owner == e.owner && claimed.deletedAt == e.deletedAt
       && claimed.backgroundReq == e.backgroundReq
  }

  lemma {:induction false} ClaimedMeans(c: Contents, id: string, workerID: string, now: int)
    requires NextToClaim(c, id)
    ensures ClaimMeans(c, Claimed(c, id, workerID, now), id, workerID, now)
  {
    assert Claimed(c, id, workerID, now).entries.Keys == c.entries.Keys;
  }

  // ----- Stale detection and cleaning up -----

  /** A background response in progress whose worker has been silent since `cutoff`. */
  predicate Stale(e: Entry, cutoff: int) {
    && e.deletedAt.None? && e.resp.status == InProgress && e.resp.background
    && e.workerHeartbeat.Some? && e.workerHeartbeat.value < cutoff
  }

  predicate Expired(e: Entry, cutoff: int) {
    e.resp.background && e.resp.status in {Completed, Failed, Cancelled} && e.resp.createdAt < cutoff
  }

  /** A deleted response, or one that is not a background response, is neither claimed,
      found stale, nor, in the second case, cleaned up; and each of these happens in one
      status, or to those that are over. */
  lemma {:induction false} KeptOutOf(e: Entry, cutoff: int)
    ensures e.deletedAt.Some? || !e.resp.background ==> !Claimable(e) && !Stale(e, cutoff)
    ensures e.deletedAt.None? && e.resp.background ==>
      && (Claimable(e) <==> e.resp.status.Queued?)
      && (Stale(e, cutoff) <==> e.resp.status.InProgress? && e.workerHeartbeat.Some? && e.workerHeartbeat.value < cutoff)
    ensures Expired(e, cutoff) <==>
      && e.resp.background && e.resp.createdAt < cutoff
      && (e.resp.status.Completed? || e.resp.status.Failed? || e.resp.status.Cancelled?)
  {
  }

  function Without(ids: seq<string>, gone: set<string>): (rest: seq<string>)
    ensures forall id :: id in rest <==> id in ids && id !in gone
  {
    if ids == [] then []
    else
      var rest := Without(ids[..|ids| - 1], gone);
      if ids[|ids| - 1] in gone then rest else rest + [ids[|ids| - 1]]
  }

  /** `a` stands somewhere before `b`. */
  predicate Before(ids: seq<string>, a: string, b: string) {
    ids != [] && (Before(ids[..|ids| - 1], a, b) || (ids[|ids| - 1] == b && a in ids[..|ids| - 1]))
  }

  /** Of two ids in a list of distinct ones just one stands before the other. */
  lemma {:induction false} BeforeIsOrder(ids: seq<string>, a: string, b: string)
    requires Distinct(ids)
    ensures Before(ids, a, b) ==> a in ids && b in ids && a != b
    ensures a in ids && b in ids && a != b ==> (Before(ids, a, b) <==> !Before(ids, b, a))
  {
    if ids != [] {
      BeforeIsOrder(ids[..|ids| - 1], a, b);
      BeforeIsOrder(ids[..|ids| - 1], b, a);
      assert ids == ids[..|ids| - 1] + [ids[|ids| - 1]];
    }
  }

  /** What is left stands in the same order. */
  lemma {:induction false} WithoutKeepsOrder(ids: seq<string>, gone: set<string>, a: string, b: string)
    ensures Before(Without(ids, gone), a, b) <==> Before(ids, a, b) && a !in gone && b !in gone
  {
    if ids != [] {
      var rest := Without(ids[..|ids| - 1], gone);
      WithoutKeepsOrder(ids[..|ids| - 1], gone, a, b);
      assert (rest + [ids[|ids| - 1]])[..|rest|] == rest;
    }
  }

  lemma {:induction false} WithoutConcat(a: seq<string>, b: seq<string>, gone: set<string>)
    ensures Without(a + b, gone) == Without(a, gone) + Without(b, gone)
    decreases |b|
  {
    if b == [] {
      assert a + b == a;
    } else {
      var front, last := b[..|b| - 1], b[|b| - 1];
      assert (a + b)[..|a + b| - 1] == a + front;
      WithoutConcat(a, front, gone);
      Assoc(Without(a, gone), Without(front, gone), if last in gone then [] else [last]);
    }
  }

  lemma {:induction false} WithoutOne(id: string, gone: set<string>)
    ensures Without([id], gone) == if id in gone then [] else [id]
  {
    assert [id][..0] == [];
  }

  lemma {:induction false} WithoutSame(ids: seq<string>, gone: set<string>, others: set<string>)
    requires forall id | id in ids :: id in gone <==> id in others
    ensures Without(ids, gone) == Without(ids, others)
  {
    if ids != [] {
      assert ids[|ids| - 1] in ids;
      WithoutSame(ids[..|ids| - 1], gone, others);
    }
  }

  function Removed(c: Contents, gone: set<string>): Contents {
    Contents(c.entries - gone, Without(c.order, gone))
  }

  lemma {:induction false} WithoutDistinct(ids: seq<string>, gone: set<string>)
    requires Distinct(ids)
    ensures Distinct(Without(ids, gone))
  {
    if ids != [] {
      var front, last := ids[..|ids| - 1], ids[|ids| - 1];
      WithoutDistinct(front, gone);
      assert last !in front;
      assert last !in Without(front, gone);
    }
  }

  /** Removing ids keeps list and map together, and the order of those that stay. */
  lemma {:induction false} RemovedCoherent(c: Contents, maxSize: int, gone: set<string>)
    requires Coherent(c, maxSize)
    ensures Coherent(Removed(c, gone), maxSize)
    ensures forall a, b :: Before(Removed(c, gone).order, a, b) <==> Before(c.order, a, b) && a !in gone && b !in gone
  {
    RemovedKeepsIds(c, maxSize, gone);
    forall a, b
      ensures Before(Removed(c, gone).order, a, b) <==> Before(c.order, a, b) && a !in gone && b !in gone
    {
      WithoutKeepsOrder(c.order, gone, a, b);
    }
  }

  lemma RemovedKeepsIds(c: Contents, maxSize: int, gone: set<string>)
    requires Coherent(c, maxSize)
    ensures Coherent(Removed(c, gone), maxSize)
  {
    WithoutDistinct(c.order, gone);
    assert (c.entries - gone).Keys == c.entries.Keys - gone;
    OrderSize(c, maxSize);
    SubsetSize(c.entries.Keys - gone, c.entries.Keys);
  }

  lemma SubsetSize<T>(a: set<T>, b: set<T>)
    requires a <= b
    ensures |a| <= |b|
  {
    assert b == a + (b - a);
  }

  lemma {:induction false} WithoutMore(ids: seq<string>, gone: set<string>, more: set<string>)
    ensures Without(Without(ids, gone), more) == Without(ids, gone + more)
  {
    if ids != [] {
      WithoutMore(ids[..|ids| - 1], gone, more);
      var rest := Without(ids[..|ids| - 1], gone);
      var last := ids[|ids| - 1];
      assert (rest + [last])[..|rest|] == rest;
    }
  }

  lemma RemovedMore(c: Contents, gone: set<string>, id: string)
    ensures Removed(Removed(c, gone), {id}) == Removed(c, gone + {id})
  {
    WithoutMore(c.order, gone, {id});
    assert c.entries - gone - {id} == c.entries - (gone + {id});
  }

  /** Evicting is removing the last of the list. */
  lemma {:induction false} EvictedIsRemoved(c: Contents, maxSize: int)
    requires Coherent(c, maxSize) && c.order != []
    ensures Evicted(c) == Removed(c, {c.order[|c.order| - 1]})
  {
    var n := |c.order| - 1;
    WithoutAt(c.order, n);
    assert c.order[..n] + c.order[n + 1..] == c.order[..n];
  }

  /** A save in a full store pushes out the id behind all others. */
  lemma {:induction false} SavePushesOutLast(c: Contents, maxSize: int, e: Entry)
    requires Coherent(c, maxSize) && 0 < maxSize <= |c.entries|
    ensures c.order != []
    ensures var last := c.order[|c.order| - 1];
      && last in c.entries && Saved(c, maxSize, e).entries.Keys == c.entries.Keys - {last} + {e.resp.id}
      && forall id | id in c.entries && id != last :: Before(c.order, id, last)
  {
    OrderSize(c, maxSize);
    LastOut(c.order);
    var front, last := c.order[..|c.order| - 1], c.order[|c.order| - 1];
    assert Saved(c, maxSize, e).entries.Keys == c.entries.Keys - {last} + {e.resp.id};
    forall id | id in c.entries && id != last
      ensures Before(c.order, id, last)
    {
      assert id in c.order;
      assert id in front;
    }
  }

  /** A cleanup under way: `gone` has been deleted, and `unread` is still to be visited. */
  ghost predicate Swept(c: Contents, now: Contents, gone: set<string>, unread: set<string>, cutoff: int) {
    && now == Removed(c, gone)
    && (forall id | id in gone :: id in c.entries && Expired(c.entries[id], cutoff))
    && (forall id | id in now.entries && id !in unread :: !Expired(now.entries[id], cutoff))
  }

  lemma SweepStep(c: Contents, now: Contents, gone: set<string>, unread: set<string>, id: string, cutoff: int)
    requires Swept(c, now, gone, unread, cutoff) && id in now.entries
    ensures id in c.entries && now.entries[id] == c.entries[id] && |gone + {id}| == |gone| + 1
    ensures Expired(now.entries[id], cutoff) ==> Swept(c, Removed(now, {id}), gone + {id}, unread - {id}, cutoff)
    ensures !Expired(now.entries[id], cutoff) ==> Swept(c, now, gone, unread - {id}, cutoff)
  {
    RemovedMore(c, gone, id);
    assert id !in gone;
  }

  lemma RemovedNone(c: Contents)
    ensures Removed(c, {}) == c
  {
    WithoutNone(c.order, {});
    assert c.entries - {} == c.entries;
  }

  lemma {:induction false} WithoutNone(ids: seq<string>, gone: set<string>)
    requires forall id | id in ids :: id !in gone
    ensures Without(ids, gone) == ids
  {
    if ids != [] {
      WithoutNone(ids[..|ids| - 1], gone);
      assert ids[|ids| - 1] in ids && ids == ids[..|ids| - 1] + [ids[|ids| - 1]];
    }
  }

  /** Taking one id out of a list of distinct ids. */
  lemma {:induction false} WithoutAt(ids: seq<string>, k: nat)
    requires Distinct(ids) && k < |ids|
    ensures Without(ids, {ids[k]}) == ids[..k] + ids[k + 1..]
  {
    var (a, id, b) := (ids[..k], ids[k], ids[k + 1..]);
    assert ids == a + [id] + b;
    WithoutConcat(a + [id], b, {id});
    WithoutConcat(a, [id], {id});
    WithoutOne(id, {id});
    WithoutNone(a, {id});
    WithoutNone(b, {id});
  }
}
