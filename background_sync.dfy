// The queue of operations made while offline, kept as JSON in local
// storage under `pendingOperations`, and the sync that replays it.
//
// The backend call each operation makes is replaced by `succeeds`, which
// says whether it settles without throwing; the clock and the random part
// of a new id are parameters. The sync `queueOperation` starts when online
// is not awaited there, so it is reported back (`syncRequested`) and is the
// caller's next `SyncPendingOperations`.

module BackgroundSync {
  import opened Wrappers

  const DefaultIntervalMs: int := 30000
  const SyncedMessage := "All changes synced successfully"

  /** The operation types that reach the backend; any other type is only logged. */
  const KnownKinds: set<string> := {"share_playlist", "add_friend", "remove_friend"}

  /** A queued operation; `id` is `Date.now() + Math.random()`, a real number. */
  datatype Operation = Operation(id: real, kind: string, data: string, timestamp: int)

  /** The storage slot: nothing (or an empty string), text `JSON.parse`
      rejects, or a saved list. */
  datatype Storage = Empty | Unparsable | Saved(ops: seq<Operation>)

  /** `getPendingOperations`. */
  function Pending(storage: Storage): (ops: seq<Operation>)
    ensures !storage.Saved? ==> ops == []
  {
    if storage.Saved? then storage.ops else []
  }

  /** `operations.filter(op => op.id !== id)`. */
  function RemoveId(ops: seq<Operation>, id: real): (r: seq<Operation>)
    ensures forall x :: x in r <==> x in ops && x.id != id
    ensures |r| <= |ops|
  {
    if ops == [] then []
    else if ops[0].id == id then RemoveId(ops[1..], id)
    else [ops[0]] + RemoveId(ops[1..], id)
  }

  /** `processOperation` settles without throwing: the backend call
      succeeds, or the type is unknown and nothing is called. */
  predicate Processes(op: Operation, succeeds: Operation -> bool)
  {
    op.kind !in KnownKinds || succeeds(op)
  }

  /** The list after the sync loop has handled `done`, in order: each
      operation that processed removes every entry with its id. */
  function AfterSync(ops: seq<Operation>, done: seq<Operation>, succeeds: Operation -> bool): seq<Operation>
  {
    if done == [] then ops
    else
      var prev := AfterSync(ops, done[..|done| - 1], succeeds);
      var last := done[|done| - 1];
      if Processes(last, succeeds) then RemoveId(prev, last.id) else prev
  }

  /** Some operation in `done` processed and carries `x`'s id. */
  predicate RemovedBy(x: Operation, done: seq<Operation>, succeeds: Operation -> bool)
  {
    exists d :: d in done && Processes(d, succeeds) && d.id == x.id
  }

  /** The reference: the entries of `ops`, in order, that no processed operation removed. */
  function Surviving(ops: seq<Operation>, done: seq<Operation>, succeeds: Operation -> bool): seq<Operation>
  {
    if ops == [] then []
    else if RemovedBy(ops[0], done, succeeds) then Surviving(ops[1..], done, succeeds)
    else [ops[0]] + Surviving(ops[1..], done, succeeds)
  }

  lemma {:induction false} SurvivingStep(ops: seq<Operation>, done: seq<Operation>, d: Operation, succeeds: Operation -> bool)
    ensures Surviving(ops, done + [d], succeeds) ==
      if Processes(d, succeeds) then RemoveId(Surviving(ops, done, succeeds), d.id) else Surviving(ops, done, succeeds)
    decreases |ops|
  {
    if ops != [] {
      SurvivingStep(ops[1..], done, d, succeeds);
      var x := ops[0];
      if RemovedBy(x, done + [d], succeeds) {
        if !RemovedBy(x, done, succeeds) {
          assert Processes(d, succeeds) && d.id == x.id;
        }
      } else {
        assert forall e :: e in done ==> e in done + [d];
      }
    }
  }

  /** Handling the operations one at a time and removing by id leaves
      exactly the entries no processed operation shares an id with. */
  lemma {:induction false} AfterSyncIsSurviving(ops: seq<Operation>, done: seq<Operation>, succeeds: Operation -> bool)
    ensures AfterSync(ops, done, succeeds) == Surviving(ops, done, succeeds)
    decreases |done|
  {
    if done == [] {
      SurvivingNone(ops, succeeds);
    } else {
      var front := done[..|done| - 1];
      AfterSyncIsSurviving(ops, front, succeeds);
      assert front + [done[|done| - 1]] == done;
      SurvivingStep(ops, front, done[|done| - 1], succeeds);
    }
  }

  lemma {:induction false} SurvivingNone(ops: seq<Operation>, succeeds: Operation -> bool)
    ensures Surviving(ops, [], succeeds) == ops
    decreases |ops|
  {
    if ops != [] {
      SurvivingNone(ops[1..], succeeds);
      assert [ops[0]] + ops[1..] == ops;
    }
  }

  lemma {:induction false} SurvivingMembers(ops: seq<Operation>, done: seq<Operation>, succeeds: Operation -> bool)
    ensures forall x :: x in Surviving(ops, done, succeeds) <==> x in ops && !RemovedBy(x, done, succeeds)
    decreases |ops|
  {
    if ops != [] {
      SurvivingMembers(ops[1..], done, succeeds);
      assert forall x :: x in ops <==> x == ops[0] || x in ops[1..];
    }
  }

  /** After a sync over `pending`: an entry stays exactly when no operation
      with its id processed; so an unknown type is always dropped, and a
      failing operation whose id is its own stays queued. */
  lemma SyncOutcome(pending: seq<Operation>, succeeds: Operation -> bool)
    ensures forall x :: x in AfterSync(pending, pending, succeeds) <==>
      x in pending && forall d :: d in pending && d.id == x.id ==> !Processes(d, succeeds)
    ensures forall x :: x in pending && x.kind !in KnownKinds ==> x !in AfterSync(pending, pending, succeeds)
    ensures forall x :: (x in pending && !succeeds(x) && x.kind in KnownKinds
      && (forall d :: d in pending && d.id == x.id ==> d == x)) ==> x in AfterSync(pending, pending, succeeds)
  {
    AfterSyncIsSurviving(pending, pending, succeeds);
    SurvivingMembers(pending, pending, succeeds);
  }

  /** A running `setInterval`: its handle and period. */
  datatype Interval = Interval(handle: nat, periodMs: int)

  class Syncer {
    var storage: Storage
    var isSyncing: bool
    var lastSyncTime: Option<int>
    var syncInterval: Option<Interval>

    constructor (storedAtStart: Storage)
      ensures storage == storedAtStart && !isSyncing && lastSyncTime == None && syncInterval == None
    {
      storage := storedAtStart;
      isSyncing := false;
      lastSyncTime := None;
      syncInterval := None;
    }

    /** `queueOperation`: the operation goes at the end of the list with
        the id `now + random`. */
    method QueueOperation(kind: string, data: string, timestamp: int, now: int, random: real, online: bool)
      returns (syncRequested: bool)
      modifies this
      ensures storage == Saved(Pending(old(storage)) + [Operation(now as real + random, kind, data, timestamp)])
      ensures syncRequested == online
      ensures isSyncing == old(isSyncing) && lastSyncTime == old(lastSyncTime) && syncInterval == old(syncInterval)
    {
      var operations := Pending(storage);
      var id := now as real + random;
      operations := operations + [Operation(id, kind, data, timestamp)];
      storage := Saved(operations);
      syncRequested := online;
    }

    /** `removePendingOperation`. */
    method RemovePendingOperation(id: real)
      modifies this
      ensures storage == Saved(RemoveId(Pending(old(storage)), id))
      ensures isSyncing == old(isSyncing) && lastSyncTime == old(lastSyncTime) && syncInterval == old(syncInterval)
    {
      var operations := Pending(storage);
      storage := Saved(RemoveId(operations, id));
    }

    /** `syncPendingOperations`: nothing while a sync runs or offline;
        otherwise each operation of the list read at the start is
        processed and, when that does not throw, removed by id. The toast
        is shown whenever the list was not empty. */
    method SyncPendingOperations(online: bool, succeeds: Operation -> bool, now: int)
      returns (toast: Option<string>)
      modifies this
      ensures syncInterval == old(syncInterval)
      ensures old(isSyncing) || !online ==>
        storage == old(storage) && isSyncing == old(isSyncing) && lastSyncTime == old(lastSyncTime) && toast == None
      ensures !old(isSyncing) && online ==>
        var pending := Pending(old(storage));
        && !isSyncing && lastSyncTime == Some(now)
        && (pending == [] ==> storage == old(storage) && toast == None)
        && (pending != [] ==> storage == Saved(AfterSync(pending, pending, succeeds)) && toast == Some(SyncedMessage))
    {
      if isSyncing || !online {
        return None;
      }
      isSyncing := true;
      var pending := Pending(storage);
      if |pending| == 0 {
        lastSyncTime := Some(now);
        isSyncing := false;
        return None;
      }
      var k := 0;
      while k < |pending|
        invariant 0 <= k <= |pending|
        invariant storage == Saved(AfterSync(pending, pending[..k], succeeds))
        invariant syncInterval == old(syncInterval)
      {
        var operation := pending[k];
        assert pending[..k + 1] == pending[..k] + [operation];
        if Processes(operation, succeeds) {
          RemovePendingOperation(operation.id);
        }
        k := k + 1;
      }
      assert pending[..k] == pending;
      lastSyncTime := Some(now);
      toast := Some(SyncedMessage);
      isSyncing := false;
    }

    /** `startBackgroundSync`: a running interval (a truthy handle) is kept;
        otherwise `handle` is the id `setInterval` returns. */
    method StartBackgroundSync(intervalMs: Option<int>, handle: nat)
      modifies this
      ensures old(syncInterval).Some? && old(syncInterval).value.handle != 0 ==> syncInterval == old(syncInterval)
      ensures !(old(syncInterval).Some? && old(syncInterval).value.handle != 0) ==>
        syncInterval == Some(Interval(handle, intervalMs.GetOr(DefaultIntervalMs)))
      ensures storage == old(storage) && isSyncing == old(isSyncing) && lastSyncTime == old(lastSyncTime)
    {
      if syncInterval.Some? && syncInterval.value.handle != 0 {
        return;
      }
      syncInterval := Some(Interval(handle, intervalMs.GetOr(DefaultIntervalMs)));
    }

    /** `stopBackgroundSync`: a truthy handle is cleared. */
    method StopBackgroundSync()
      modifies this
      ensures old(syncInterval).Some? && old(syncInterval).value.handle != 0 ==> syncInterval == None
      ensures !(old(syncInterval).Some? && old(syncInterval).value.handle != 0) ==> syncInterval == old(syncInterval)
      ensures storage == old(storage) && isSyncing == old(isSyncing) && lastSyncTime == old(lastSyncTime)
    {
      if syncInterval.Some? && syncInterval.value.handle != 0 {
        syncInterval := None;
      }
    }
  }

  /** A queued operation whose id was not in the list is the one removal of
      that id takes out again. */
  lemma {:induction false} QueueThenRemove(ops: seq<Operation>, op: Operation)
    requires forall x :: x in ops ==> x.id != op.id
    ensures RemoveId(ops + [op], op.id) == ops
    decreases |ops|
  {
    if ops == [] {
      assert [op][1..] == [];
    } else {
      assert (ops + [op])[1..] == ops[1..] + [op];
      QueueThenRemove(ops[1..], op);
      assert [ops[0]] + ops[1..] == ops;
    }
  }
}
