/** Background responses: workers (pkg/engine/background.go), users cancelling
    (pkg/transport/http/adapter.go) and the memory store, whose every operation runs
    under its lock, in any interleaving. */
module Background {
  import opened Sequences
  import opened Wrappers
  import opened ResponseState
  import opened StoreContents
  import Api

  /** How a worker's processing of a claimed request ends. */
  datatype Ending =
    | Produced(output: Option<string>, usage: Option<Api.Usage>, completedAt: int)
    | Errored(reason: string)
    | Interrupted

  datatype Step =
    | Submit(resp: Response, caller: Caller)
    | SaveRequest(id: string, reqData: string)
    | Claim(worker: string, id: string, now: int)
    | Heartbeat(worker: string, id: string, now: int)
    | Finish(worker: string, id: string, ending: Ending)
    | FindStale(cutoff: int)
    | MarkStale(id: string, reason: string)
    | ShutdownMark(worker: string, id: string, reason: string)
    | CheckCancel(id: string)
    | UserCancel(id: string)
    | Delete(caller: Caller, id: string, now: int)
    | Cleanup(gone: set<string>, cutoff: int, batchSize: nat)

  /** `submitted` holds the ids given out so far, newest first, `tasks` the requests being
      processed and by whom; `suspects` and `cancelling` are what stale detection and cancelling
      users have read and not yet acted on. `claims` counts the claims of each id,
      `claimants` says who made them, and `endings` counts the terminal statuses that
      were accepted for each id. */
  datatype System = System(
    store: Contents, submitted: seq<string>, tasks: set<(string, string)>,
    suspects: set<string>, cancelling: set<string>,
    claims: multiset<string>, claimants: set<(string, string)>, endings: multiset<string>)

  const START: System := System(EMPTY, [], {}, {}, {}, multiset{}, {}, multiset{})

  // ----- The writers -----

  const NO_CHANGE: Update := Update(None, None, None, None, None, None)

  function MarkCompleted(output: Option<string>, usage: Option<Api.Usage>, completedAt: int): Update {
    NO_CHANGE.(status := Some(Completed), output := output, usage := usage, completedAt := Some(completedAt))
  }

  function MarkFailed(reason: string): Update {
    NO_CHANGE.(status := Some(Failed), error := Some("background processing failed: " + reason))
  }

  function MarkCancelled(): Update {
    NO_CHANGE.(status := Some(Cancelled))
  }

  function EndingUpdate(ending: Ending): Update {
    match ending
    case Produced(output, usage, completedAt) => MarkCompleted(output, usage, completedAt)
    case Errored(reason) => MarkFailed(reason)
    case Interrupted => MarkCancelled()
  }

  /** The updates that the system ever sends: a status with its data, or a heartbeat. */
  predicate Sent(u: Update) {
    u.status.Some? || u == NO_CHANGE.(workerHeartbeat := u.workerHeartbeat)
  }

  // ----- Steps -----

  predicate Cancellable(e: Entry) {
    e.resp.background && (e.resp.status == Queued || e.resp.status == InProgress)
  }

  ghost predicate Enabled(s: System, step: Step) {
    match step
    case Submit(resp, _) => resp.id !in s.submitted && (resp.background ==> resp.status == Queued)
    case SaveRequest(_, _) => true
    case Claim(_, id, _) => NextToClaim(s.store, id)
    case Heartbeat(worker, id, _) => (worker, id) in s.claimants
    case Finish(worker, id, _) => (worker, id) in s.tasks
    case FindStale(_) => true
    case MarkStale(id, _) => id in s.suspects
    case ShutdownMark(worker, id, _) => (worker, id) in s.claimants
    case CheckCancel(id) => id in s.store.entries && Cancellable(s.store.entries[id])
    case UserCancel(id) => id in s.cancelling
    case Delete(_, _, _) => true
    case Cleanup(gone, cutoff, batchSize) =>
      |gone| <= batchSize && forall id | id in gone :: id in s.store.entries && Expired(s.store.entries[id], cutoff)
  }

  function Send(s: System, id: string, u: Update): System {
    var (store, r) := Updated(s.store, id, u);
    s.(store := store,
       endings := if r == Done && u.status.Some? && IsTerminal(u.status.value) then s.endings + multiset{id} else s.endings)
  }

  ghost function Next(s: System, step: Step, maxSize: int): System {
    if !Enabled(s, step) then s
    else
      match step
      case Submit(resp, caller) =>
        s.(store := Saved(s.store, maxSize, NewEntry(resp, caller.tenant, caller.owner)), submitted := [resp.id] + s.submitted)
      case SaveRequest(id, reqData) =>
        if id !in s.store.entries then s
        else s.(store := s.store.(entries := s.store.entries[id := s.store.entries[id].(backgroundReq := Some(reqData))]))
      case Claim(worker, id, now) =>
        s.(store := Claimed(s.store, id, worker, now), tasks := s.tasks + {(worker, id)},
           claims := s.claims + multiset{id}, claimants := s.claimants + {(worker, id)})
      case Heartbeat(_, id, now) => Send(s, id, NO_CHANGE.(workerHeartbeat := Some(now)))
      case Finish(worker, id, ending) => Send(s, id, EndingUpdate(ending)).(tasks := s.tasks - {(worker, id)})
      case FindStale(cutoff) =>
        s.(suspects := s.suspects + set id | id in s.store.entries && Stale(s.store.entries[id], cutoff))
      case MarkStale(id, reason) => Send(s, id, MarkFailed(reason))
      case ShutdownMark(_, id, reason) => Send(s, id, MarkFailed(reason))
      case CheckCancel(id) => s.(cancelling := s.cancelling + {id})
      case UserCancel(id) => Send(s, id, MarkCancelled()).(cancelling := s.cancelling - {id})
      case Delete(caller, id, now) => s.(store := Deleted(s.store, caller, id, now))
      case Cleanup(gone, _, _) => s.(store := Removed(s.store, gone))
  }

  ghost function Run(s: System, steps: seq<Step>, maxSize: int): System
    decreases |steps|
  {
    if steps == [] then s else Run(Next(s, steps[0], maxSize), steps[1..], maxSize)
  }

  // ----- What every run keeps -----

  /** What an entry's status says about the past of its response. */
  predicate Explained(s: System, id: string, e: Entry) {
    && (e.resp.status == Queued ==> s.claims[id] == 0)
    && (!IsTerminal(e.resp.status) ==> s.endings[id] == 0)
    && (e.resp.background && (e.resp.status == InProgress || e.resp.status == Completed || e.resp.status == Failed) ==>
          (e.workerID, id) in s.claimants)
  }

  ghost predicate Past(s: System, id: string) {
    && s.claims[id] <= 1 && s.endings[id] <= 1
    && (id !in s.submitted ==> id !in s.store.entries && s.claims[id] == 0 && s.endings[id] == 0)
    && (id in s.store.entries ==> Explained(s, id, s.store.entries[id]))
    && (forall w | (w, id) in s.tasks :: (w, id) in s.claimants)
    && (forall w | (w, id) in s.claimants :: s.claims[id] == 1)
    && (forall w, w' | (w, id) in s.claimants && (w', id) in s.claimants :: w == w')
  }

  function Missing(s: System): set<string> {
    set id | id in s.submitted && id !in s.store.entries
  }

  /** The store's list has the ids it still holds in the order in which they were
      submitted, newest first. */
  ghost predicate InOrder(s: System) {
    && Distinct(s.submitted)
    && (forall id | id in s.store.entries :: id in s.submitted)
    && s.store.order == Without(s.submitted, Missing(s))
  }

  ghost predicate Inv(s: System, maxSize: int) {
    Coherent(s.store, maxSize) && InOrder(s) && forall id :: Past(s, id)
  }

  lemma {:induction false} SameOrder(s: System, s': System)
    requires InOrder(s)
    requires s'.submitted == s.submitted && s'.store.order == s.store.order
    requires s'.store.entries.Keys == s.store.entries.Keys
    ensures InOrder(s')
  {
    assert forall id :: id in s'.store.entries <==> id in s'.store.entries.Keys;
    assert Missing(s') == Missing(s);
  }

  lemma {:induction false} SameEntryOrder(s: System, s': System, id: string, e: Entry)
    requires InOrder(s) && id in s.store.entries
    requires s'.submitted == s.submitted && s'.store == s.store.(entries := s.store.entries[id := e])
    ensures InOrder(s')
  {
    assert s'.store.entries.Keys == s.store.entries.Keys;
    SameOrder(s, s');
  }

  lemma {:induction false} RemovedInOrder(s: System, gone: set<string>, maxSize: int)
    requires Coherent(s.store, maxSize) && InOrder(s)
    ensures InOrder(s.(store := Removed(s.store, gone)))
  {
    var s' := s.(store := Removed(s.store, gone));
    WithoutMore(s.submitted, Missing(s), gone);
    WithoutSame(s.submitted, Missing(s) + gone, Missing(s'));
  }

  lemma {:induction false} AddedInOrder(s: System, e: Entry)
    requires InOrder(s) && e.resp.id !in s.submitted
    ensures InOrder(s.(store := Contents(s.store.entries[e.resp.id := e], [e.resp.id] + s.store.order),
                       submitted := [e.resp.id] + s.submitted))
  {
    var id := e.resp.id;
    var s' := s.(store := Contents(s.store.entries[id := e], [id] + s.store.order), submitted := [id] + s.submitted);
    DistinctCons(id, s.submitted);
    assert Missing(s') == Missing(s);
    WithoutConcat([id], s.submitted, Missing(s));
    WithoutOne(id, Missing(s));
  }

  lemma {:induction false} SavedInOrder(s: System, e: Entry, maxSize: int)
    requires Coherent(s.store, maxSize) && InOrder(s) && e.resp.id !in s.submitted
    ensures InOrder(s.(store := Saved(s.store, maxSize, e), submitted := [e.resp.id] + s.submitted))
  {
    OrderSize(s.store, maxSize);
    if maxSize > 0 && |s.store.entries| >= maxSize {
      var gone := {s.store.order[|s.store.order| - 1]};
      EvictedIsRemoved(s.store, maxSize);
      RemovedInOrder(s, gone, maxSize);
      AddedInOrder(s.(store := Removed(s.store, gone)), e);
    } else {
      AddedInOrder(s, e);
    }
  }

  lemma SendKeepsPast(s: System, id: string, u: Update, other: string)
    requires Past(s, other)
    requires u.status.Some? ==> u.status.value == Completed || u.status.value == Failed || u.status.value == Cancelled
    ensures Past(Send(s, id, u), other)
  {
    if other == id && id in s.store.entries && u.status.Some? {
      TerminalIsFinal(s.store.entries[id].resp.status, u.status.value);
    }
  }

  lemma {:induction false} SendInOrder(s: System, id: string, u: Update)
    requires InOrder(s)
    ensures InOrder(Send(s, id, u))
  {
    if id in s.store.entries && Send(s, id, u).store != s.store {
      SameEntryOrder(s, Send(s, id, u), id, Applied(s.store.entries[id], u));
    }
  }

  lemma SendKeepsInv(s: System, id: string, u: Update, maxSize: int)
    requires Inv(s, maxSize)
    requires u.status.Some? ==> u.status.value == Completed || u.status.value == Failed || u.status.value == Cancelled
    ensures Inv(Send(s, id, u), maxSize)
  {
    var s' := Send(s, id, u);
    assert Coherent(s'.store, maxSize) by {
      if id in s.store.entries {
        assert s.store.entries[id].resp.id == id;
        SameKeysCoherent(s.store, maxSize, id, Applied(s.store.entries[id], u));
      }
    }
    SendInOrder(s, id, u);
    forall other
      ensures Past(s', other)
    {
      SendKeepsPast(s, id, u, other);
    }
  }

  lemma {:induction false} SubmitKeepsPast(s: System, resp: Response, caller: Caller, maxSize: int, other: string)
    requires Past(s, resp.id) && Past(s, other) && Enabled(s, Submit(resp, caller))
    ensures Past(Next(s, Submit(resp, caller), maxSize), other)
  {
  }

  lemma {:induction false} SubmitKeepsInv(s: System, resp: Response, caller: Caller, maxSize: int)
    requires Inv(s, maxSize) && Enabled(s, Submit(resp, caller))
    ensures Inv(Next(s, Submit(resp, caller), maxSize), maxSize)
  {
    var s' := Next(s, Submit(resp, caller), maxSize);
    var e := NewEntry(resp, caller.tenant, caller.owner);
    assert Past(s, resp.id);
    SavedCoherent(s.store, maxSize, e);
    SavedInOrder(s, e, maxSize);
    SameOrder(s.(store := Saved(s.store, maxSize, e), submitted := [resp.id] + s.submitted), s');
    forall other
      ensures Past(s', other)
    {
      assert Past(s, other);
      SubmitKeepsPast(s, resp, caller, maxSize, other);
    }
  }

  lemma {:induction false} ClaimKeepsPast(s: System, worker: string, id: string, now: int, maxSize: int, other: string)
    requires Past(s, id) && Past(s, other) && NextToClaim(s.store, id)
    ensures Past(Next(s, Claim(worker, id, now), maxSize), other)
  {
  }

  lemma ClaimKeepsInv(s: System, worker: string, id: string, now: int, maxSize: int)
    requires Inv(s, maxSize) && NextToClaim(s.store, id)
    ensures Inv(Next(s, Claim(worker, id, now), maxSize), maxSize)
  {
    var s' := Next(s, Claim(worker, id, now), maxSize);
    assert Past(s, id);
    assert Coherent(s'.store, maxSize) by {
      assert s.store.entries[id].resp.id == id;
      SameKeysCoherent(s.store, maxSize, id, ClaimedEntry(s.store.entries[id], worker, now));
    }
    SameEntryOrder(s, s', id, ClaimedEntry(s.store.entries[id], worker, now));
    forall other
      ensures Past(s', other)
    {
      ClaimKeepsPast(s, worker, id, now, maxSize, other);
    }
  }

  lemma RemoveKeepsInv(s: System, gone: set<string>, maxSize: int)
    requires Inv(s, maxSize)
    ensures Inv(s.(store := Removed(s.store, gone)), maxSize)
  {
    var s' := s.(store := Removed(s.store, gone));
    RemovedKeepsIds(s.store, maxSize, gone);
    RemovedInOrder(s, gone, maxSize);
    forall other
      ensures Past(s', other)
    {
      assert Past(s, other);
    }
  }

  lemma {:induction false} TouchKeepsPast(s: System, id: string, e: Entry, other: string)
    requires Past(s, other) && id in s.store.entries
    requires e.resp == s.store.entries[id].resp && e.workerID == s.store.entries[id].workerID
    ensures Past(s.(store := s.store.(entries := s.store.entries[id := e])), other)
  {
  }

  /** A change to fields that no status depends on. */
  lemma {:induction false} TouchKeepsInv(s: System, id: string, e: Entry, maxSize: int)
    requires Inv(s, maxSize) && id in s.store.entries
    requires e.resp == s.store.entries[id].resp && e.workerID == s.store.entries[id].workerID
    ensures Inv(s.(store := s.store.(entries := s.store.entries[id := e])), maxSize)
  {
    var s' := s.(store := s.store.(entries := s.store.entries[id := e]));
    CoherentIds(s.store, maxSize);
    SameKeysCoherent(s.store, maxSize, id, e);
    SameEntryOrder(s, s', id, e);
    forall other
      ensures Past(s', other)
    {
      assert Past(s, other);
      TouchKeepsPast(s, id, e, other);
    }
  }

  /** Forgetting a task, or remembering what was read. */
  lemma NoteKeepsInv(s: System, tasks: set<(string, string)>, suspects: set<string>, cancelling: set<string>, maxSize: int)
    requires Inv(s, maxSize) && tasks <= s.tasks
    ensures Inv(s.(tasks := tasks, suspects := suspects, cancelling := cancelling), maxSize)
  {
    var s' := s.(tasks := tasks, suspects := suspects, cancelling := cancelling);
    SameOrder(s, s');
    forall other
      ensures Past(s', other)
    {
      assert Past(s, other);
    }
  }

  lemma {:induction false} FinishKeepsInv(s: System, worker: string, id: string, ending: Ending, maxSize: int)
    requires Inv(s, maxSize)
    ensures Inv(Send(s, id, EndingUpdate(ending)).(tasks := s.tasks - {(worker, id)}), maxSize)
  {
    var s' := Send(s, id, EndingUpdate(ending));
    SendKeepsInv(s, id, EndingUpdate(ending), maxSize);
    NoteKeepsInv(s', s.tasks - {(worker, id)}, s'.suspects, s'.cancelling, maxSize);
  }

  lemma {:induction false} CancelKeepsInv(s: System, id: string, maxSize: int)
    requires Inv(s, maxSize)
    ensures Inv(Send(s, id, MarkCancelled()).(cancelling := s.cancelling - {id}), maxSize)
  {
    var s' := Send(s, id, MarkCancelled());
    SendKeepsInv(s, id, MarkCancelled(), maxSize);
    NoteKeepsInv(s', s'.tasks, s'.suspects, s.cancelling - {id}, maxSize);
  }

  lemma {:induction false} SuspectKeepsInv(s: System, cutoff: int, maxSize: int)
    requires Inv(s, maxSize)
    ensures Inv(Next(s, FindStale(cutoff), maxSize), maxSize)
  {
    NoteKeepsInv(s, s.tasks, Next(s, FindStale(cutoff), maxSize).suspects, s.cancelling, maxSize);
  }

  lemma {:induction false} SaveRequestKeepsInv(s: System, id: string, reqData: string, maxSize: int)
    requires Inv(s, maxSize)
    ensures Inv(Next(s, SaveRequest(id, reqData), maxSize), maxSize)
  {
    if id in s.store.entries {
      TouchKeepsInv(s, id, s.store.entries[id].(backgroundReq := Some(reqData)), maxSize);
    }
  }

  lemma {:induction false} DeleteKeepsInv(s: System, caller: Caller, id: string, now: int, maxSize: int)
    requires Inv(s, maxSize)
    ensures Inv(s.(store := Deleted(s.store, caller, id, now)), maxSize)
  {
    if id in s.store.entries && Visible(caller, s.store.entries[id]) {
      TouchKeepsInv(s, id, s.store.entries[id].(deletedAt := Some(now)), maxSize);
    }
  }

  predicate IsUpdate(step: Step) {
    step.Heartbeat? || step.Finish? || step.MarkStale? || step.ShutdownMark? || step.UserCancel?
  }

  lemma {:induction false} UpdateStepKeepsInv(s: System, step: Step, maxSize: int)
    requires Inv(s, maxSize) && Enabled(s, step) && IsUpdate(step)
    ensures Inv(Next(s, step, maxSize), maxSize)
  {
    match step {
      case Heartbeat(_, id, now) => SendKeepsInv(s, id, NO_CHANGE.(workerHeartbeat := Some(now)), maxSize);
      case Finish(worker, id, ending) => FinishKeepsInv(s, worker, id, ending, maxSize);
      case MarkStale(id, reason) => SendKeepsInv(s, id, MarkFailed(reason), maxSize);
      case ShutdownMark(_, id, reason) => SendKeepsInv(s, id, MarkFailed(reason), maxSize);
      case UserCancel(id) => CancelKeepsInv(s, id, maxSize);
      case _ =>
    }
  }

  lemma {:induction false} OtherStepKeepsInv(s: System, step: Step, maxSize: int)
    requires Inv(s, maxSize) && Enabled(s, step) && !IsUpdate(step)
    ensures Inv(Next(s, step, maxSize), maxSize)
  {
    match step {
      case Submit(resp, caller) => SubmitKeepsInv(s, resp, caller, maxSize);
      case SaveRequest(id, reqData) => SaveRequestKeepsInv(s, id, reqData, maxSize);
      case Claim(worker, id, now) => ClaimKeepsInv(s, worker, id, now, maxSize);
      case FindStale(cutoff) => SuspectKeepsInv(s, cutoff, maxSize);
      case CheckCancel(id) => NoteKeepsInv(s, s.tasks, s.suspects, s.cancelling + {id}, maxSize);
      case Delete(caller, id, now) => DeleteKeepsInv(s, caller, id, now, maxSize);
      case Cleanup(gone, _, _) => RemoveKeepsInv(s, gone, maxSize);
      case _ =>
    }
  }

  lemma {:induction false} StepKeepsInv(s: System, step: Step, maxSize: int)
    requires Inv(s, maxSize)
    ensures Inv(Next(s, step, maxSize), maxSize)
  {
    if Enabled(s, step) {
      if IsUpdate(step) {
        UpdateStepKeepsInv(s, step, maxSize);
      } else {
        OtherStepKeepsInv(s, step, maxSize);
      }
    }
  }

  lemma {:induction false} RunKeepsInv(s: System, steps: seq<Step>, maxSize: int)
    requires Inv(s, maxSize)
    ensures Inv(Run(s, steps, maxSize), maxSize)
    decreases |steps|
  {
    if steps != [] {
      StepKeepsInv(s, steps[0], maxSize);
      RunKeepsInv(Next(s, steps[0], maxSize), steps[1..], maxSize);
    }
  }

  /** The ids of the submissions that a run accepts, newest first. */
  ghost function Accepted(s: System, steps: seq<Step>, maxSize: int): seq<string>
    decreases |steps|
  {
    if steps == [] then []
    else
      var later := Accepted(Next(s, steps[0], maxSize), steps[1..], maxSize);
      if Enabled(s, steps[0]) && steps[0].Submit? then later + [steps[0].resp.id] else later
  }

  lemma {:induction false} SubmittedAreAccepted(s: System, steps: seq<Step>, maxSize: int)
    ensures Run(s, steps, maxSize).submitted == Accepted(s, steps, maxSize) + s.submitted
    decreases |steps|
  {
    if steps != [] {
      var s' := Next(s, steps[0], maxSize);
      SubmittedAreAccepted(s', steps[1..], maxSize);
      StepSubmits(s, steps[0], maxSize);
      var later := Accepted(s', steps[1..], maxSize);
      if Enabled(s, steps[0]) && steps[0].Submit? {
        Assoc(later, [steps[0].resp.id], s.submitted);
      }
    }
  }

  lemma {:induction false} StepSubmits(s: System, step: Step, maxSize: int)
    ensures Next(s, step, maxSize).submitted
         == if Enabled(s, step) && step.Submit? then [step.resp.id] + s.submitted else s.submitted
  {
  }

  /** In every run, whatever was claimed, updated, evicted, deleted or cleaned up, the
      store's list is the submitted ids without those it no longer holds. */
  lemma {:induction false} ListIsSubmissionOrder(steps: seq<Step>, maxSize: int)
    ensures var (store, ids) := (Run(START, steps, maxSize).store, Accepted(START, steps, maxSize));
            && Distinct(ids)
            && (forall id | id in store.entries :: id in ids)
            && store.order == Without(ids, set id | id in ids && id !in store.entries)
            && forall a, b | a in store.entries && b in store.entries :: Before(store.order, a, b) <==> Before(ids, a, b)
  {
    RunKeepsInv(START, steps, maxSize);
    SubmittedAreAccepted(START, steps, maxSize);
    var s := Run(START, steps, maxSize);
    assert s.submitted == Accepted(START, steps, maxSize);
    forall a, b | a in s.store.entries && b in s.store.entries
      ensures Before(s.store.order, a, b) <==> Before(s.submitted, a, b)
    {
      WithoutKeepsOrder(s.submitted, Missing(s), a, b);
    }
  }

  /** In every run a submission to a full store pushes out just the response that was
      submitted before every other one it holds. */
  lemma {:induction false} FirstInFirstOut(steps: seq<Step>, maxSize: int, resp: Response, caller: Caller)
    requires Enabled(Run(START, steps, maxSize), Submit(resp, caller))
    requires 0 < maxSize <= |Run(START, steps, maxSize).store.entries|
    ensures var held := Run(START, steps, maxSize).store.entries.Keys;
            var later := Next(Run(START, steps, maxSize), Submit(resp, caller), maxSize).store.entries.Keys;
            exists oldest :: oldest in held && later == held - {oldest} + {resp.id} && IsOldest(START, steps, maxSize, held, oldest)
  {
    RunKeepsInv(START, steps, maxSize);
    ListIsSubmissionOrder(steps, maxSize);
    var store := Run(START, steps, maxSize).store;
    SavePushesOutLast(store, maxSize, NewEntry(resp, caller.tenant, caller.owner));
    var oldest := store.order[|store.order| - 1];
    assert IsOldest(START, steps, maxSize, store.entries.Keys, oldest);
  }

  /** The run accepted every other one of these ids after this one. */
  ghost predicate IsOldest(s: System, steps: seq<Step>, maxSize: int, ids: set<string>, oldest: string) {
    forall id | id in ids && id != oldest :: Before(Accepted(s, steps, maxSize), id, oldest)
  }

  /** In every run each response is claimed at most once and gets at most one
      terminal status, even when it has been evicted meanwhile; and two workers never
      process the same one. */
  lemma OnceOnly(steps: seq<Step>, maxSize: int, id: string)
    ensures var s := Run(START, steps, maxSize);
            && s.claims[id] <= 1 && s.endings[id] <= 1
            && forall w, w' | (w, id) in s.tasks && (w', id) in s.tasks :: w == w'
  {
    RunKeepsInv(START, steps, maxSize);
    assert Past(Run(START, steps, maxSize), id);
  }

  lemma SendKeepsTerminal(s: System, id: string, u: Update, other: string)
    requires other in s.store.entries && IsTerminal(s.store.entries[other].resp.status) && Sent(u)
    ensures other in Send(s, id, u).store.entries
    ensures Send(s, id, u).store.entries[other].resp == s.store.entries[other].resp
  {
    if u.status.Some? {
      TerminalIsFinal(s.store.entries[other].resp.status, u.status.value);
    }
  }

  /** A terminal response is never changed by a step, though it may be removed. */
  lemma StepKeepsTerminal(s: System, step: Step, maxSize: int, id: string)
    requires Past(s, id) && id in s.store.entries && IsTerminal(s.store.entries[id].resp.status)
    requires id in Next(s, step, maxSize).store.entries
    ensures Next(s, step, maxSize).store.entries[id].resp == s.store.entries[id].resp
  {
    match step {
      case Heartbeat(_, at, now) => SendKeepsTerminal(s, at, NO_CHANGE.(workerHeartbeat := Some(now)), id);
      case Finish(_, at, ending) => SendKeepsTerminal(s, at, EndingUpdate(ending), id);
      case MarkStale(at, reason) => SendKeepsTerminal(s, at, MarkFailed(reason), id);
      case ShutdownMark(_, at, reason) => SendKeepsTerminal(s, at, MarkFailed(reason), id);
      case UserCancel(at) => SendKeepsTerminal(s, at, MarkCancelled(), id);
      case _ =>
    }
  }

  lemma SubmittedStays(s: System, step: Step, maxSize: int)
    ensures forall id | id in s.submitted :: id in Next(s, step, maxSize).submitted
  {
  }

  lemma {:induction false} SendAddsNone(s: System, at: string, u: Update)
    ensures Send(s, at, u).store.entries.Keys == s.store.entries.Keys
  {
    if at in s.store.entries {
      assert s.store.entries[at := Applied(s.store.entries[at], u)].Keys == s.store.entries.Keys;
    }
  }

  lemma {:induction false} SubmitAddsOne(s: System, resp: Response, caller: Caller, maxSize: int, id: string)
    requires id in Next(s, Submit(resp, caller), maxSize).store.entries && id !in s.store.entries
    ensures id !in s.submitted
  {
    assert id == resp.id;
  }

  /** Only a submission brings in an id, and a new one. */
  lemma {:induction false} NoNewEntries(s: System, step: Step, maxSize: int, id: string)
    requires id in s.submitted && id !in s.store.entries
    ensures id !in Next(s, step, maxSize).store.entries
  {
    match step {
      case Submit(resp, caller) =>
        if id in Next(s, step, maxSize).store.entries {
          SubmitAddsOne(s, resp, caller, maxSize, id);
        }
      case Heartbeat(_, at, now) => SendAddsNone(s, at, NO_CHANGE.(workerHeartbeat := Some(now)));
      case Finish(_, at, ending) => SendAddsNone(s, at, EndingUpdate(ending));
      case MarkStale(at, reason) => SendAddsNone(s, at, MarkFailed(reason));
      case ShutdownMark(_, at, reason) => SendAddsNone(s, at, MarkFailed(reason));
      case UserCancel(at) => SendAddsNone(s, at, MarkCancelled());
      case _ =>
    }
  }

  lemma {:induction false} GoneStaysGone(s: System, steps: seq<Step>, maxSize: int, id: string)
    requires id in s.submitted && id !in s.store.entries
    ensures id !in Run(s, steps, maxSize).store.entries
    decreases |steps|
  {
    if steps != [] {
      SubmittedStays(s, steps[0], maxSize);
      NoNewEntries(s, steps[0], maxSize, id);
      GoneStaysGone(Next(s, steps[0], maxSize), steps[1..], maxSize, id);
    }
  }

  /** Once terminal, a response's status, output, error, usage and completion time
      are final, whatever races follow; once removed, its id never comes back. */
  lemma {:induction false} TerminalForever(s: System, steps: seq<Step>, maxSize: int, id: string)
    requires Inv(s, maxSize) && id in s.store.entries && IsTerminal(s.store.entries[id].resp.status)
    ensures var later := Run(s, steps, maxSize).store.entries;
            id in later ==> later[id].resp == s.store.entries[id].resp
    decreases |steps|
  {
    assert Past(s, id);
    if steps != [] {
      var s' := Next(s, steps[0], maxSize);
      if id in s'.store.entries {
        StepKeepsTerminal(s, steps[0], maxSize, id);
        StepKeepsInv(s, steps[0], maxSize);
        TerminalForever(s', steps[1..], maxSize, id);
      } else {
        SubmittedStays(s, steps[0], maxSize);
        GoneStaysGone(s', steps[1..], maxSize, id);
      }
    }
  }

  /** A background response that is being processed, completed or failed was claimed
      once, by the worker it names. */
  lemma ProcessedWasClaimed(steps: seq<Step>, maxSize: int, id: string)
    requires id in Run(START, steps, maxSize).store.entries
    requires var e := Run(START, steps, maxSize).store.entries[id];
             e.resp.background && (e.resp.status == InProgress || e.resp.status == Completed || e.resp.status == Failed)
    ensures var s := Run(START, steps, maxSize);
            (s.store.entries[id].workerID, id) in s.claimants && s.claims[id] == 1
  {
    RunKeepsInv(START, steps, maxSize);
    assert Past(Run(START, steps, maxSize), id);
  }

  // ----- What the writers leave -----

  lemma {:induction false} SendMeans(s: System, id: string, u: Update)
    ensures UpdateMeans(s.store, Send(s, id, u).store, id, u, Updated(s.store, id, u).1)
  {
    UpdatedMeans(s.store, id, u);
  }

  /** What an ending makes of a response in progress. */
  predicate Leaves(was: Response, resp: Response, ending: Ending) {
    && (ending.Produced? ==>
         && resp.status == Completed && resp.completedAt == Some(ending.completedAt) && resp.error == was.error
         && resp.output == (if ending.output.Some? then ending.output else was.output)
         && resp.usage == (if ending.usage.Some? then ending.usage else was.usage))
    && (ending.Errored? ==> resp == was.(status := Failed, error := Some("background processing failed: " + ending.reason)))
    && (ending.Interrupted? ==> resp == was.(status := Cancelled))
  }

  lemma {:induction false} EndingTaken(before: Entry, after: Entry, ending: Ending)
    requires TakesUpdate(before, after, EndingUpdate(ending))
    ensures SameBut(before, after) && Leaves(before.resp, after.resp, ending)
  {
  }

  lemma {:induction false} ClaimedIsNotQueued(s: System, worker: string, id: string)
    requires Past(s, id) && (worker, id) in s.tasks && id in s.store.entries
    ensures s.store.entries[id].resp.status != Queued
  {
  }

  /** A worker that finishes a response in progress leaves just what it produced, or why it
      failed, or that it was interrupted; a response that is over already stays as it is. */
  lemma {:induction false} FinishMeans(s: System, worker: string, id: string, ending: Ending, maxSize: int)
    requires Inv(s, maxSize) && (worker, id) in s.tasks && id in s.store.entries
    ensures var (before, after) := (s.store, Next(s, Finish(worker, id, ending), maxSize).store);
      var was := before.entries[id].resp;
      if was.status == InProgress then
        && OnlyChanges(before, after, id) && SameBut(before.entries[id], after.entries[id])
        && Leaves(was, after.entries[id].resp, ending)
      else after == before
  {
    hide Past, Coherent, InOrder, TakesUpdate, SameBut, Updated;
    ClaimedIsNotQueued(s, worker, id);
    SendMeans(s, id, EndingUpdate(ending));
    WaysInto(s.store.entries[id].resp.status, EndingUpdate(ending).status.value);
    if s.store.entries[id].resp.status == InProgress {
      EndingTaken(s.store.entries[id], Next(s, Finish(worker, id, ending), maxSize).store.entries[id], ending);
    }
  }

  /** What was produced is there for as long as the response is held, whatever races follow. */
  lemma {:induction false} ProducedForever(s: System, worker: string, id: string, output: Option<string>, usage: Option<Api.Usage>,
                                           completedAt: int, steps: seq<Step>, maxSize: int)
    requires Inv(s, maxSize) && (worker, id) in s.tasks && id in s.store.entries
    requires s.store.entries[id].resp.status == InProgress
    ensures var later := Run(Next(s, Finish(worker, id, Produced(output, usage, completedAt)), maxSize), steps, maxSize).store.entries;
      id in later ==>
        && later[id].resp.status == Completed && later[id].resp.completedAt == Some(completedAt)
        && (output.Some? ==> later[id].resp.output == output) && (usage.Some? ==> later[id].resp.usage == usage)
  {
    var ending := Produced(output, usage, completedAt);
    FinishMeans(s, worker, id, ending, maxSize);
    StepKeepsInv(s, Finish(worker, id, ending), maxSize);
    TerminalForever(Next(s, Finish(worker, id, ending), maxSize), steps, maxSize, id);
  }

  /** The others that write: a response found stale or in flight at shutdown fails with the
      reason, a user's cancellation changes the status alone, a heartbeat its time alone. */
  lemma {:induction false} MarksMean(s: System, step: Step, maxSize: int)
    requires Enabled(s, step) && (step.MarkStale? || step.ShutdownMark? || step.UserCancel? || step.Heartbeat?)
    requires step.id in s.store.entries
    ensures var (before, after) := (s.store, Next(s, step, maxSize).store); var e := before.entries[step.id];
      if step.Heartbeat? then
        OnlyChanges(before, after, step.id) && after.entries[step.id] == e.(workerHeartbeat := Some(step.now))
      else if e.resp.status == InProgress || (step.UserCancel? && e.resp.status == Queued) then
        && OnlyChanges(before, after, step.id)
        && after.entries[step.id] == e.(resp :=
             if step.UserCancel? then e.resp.(status := Cancelled)
             else e.resp.(status := Failed, error := Some("background processing failed: " + step.reason)))
      else after == before
  {
    var u := if step.Heartbeat? then NO_CHANGE.(workerHeartbeat := Some(step.now))
             else if step.UserCancel? then MarkCancelled()
             else MarkFailed(step.reason);
    SendMeans(s, step.id, u);
    if !step.Heartbeat? {
      WaysInto(s.store.entries[step.id].resp.status, if step.UserCancel? then Cancelled else Failed);
    }
  }
}
