/**
 The artifact runtime object: its maps and flags, moved in place, over the store object. Its operations
 are values here; the operation object and its methods are in the module Operation.
 */
module ArtifactRuntimeObject {
  import opened Common
  import opened ReservationLedger
  import opened PermitModel
  import opened OperationModel
  import opened StoreModel
  import opened M = RuntimeModel
  import opened ArtifactStoreObject

  class ArtifactRuntime {
    const store: ArtifactStore
    var reserved: map<Id, nat>
    var ops: seq<Op>
    var tracked: set<nat>
    var owners: map<Id, Entry>
    var lineage: map<(Consumer, Controller), Lineage>
    var closed: bool
    var poisoned: bool
    var asked: map<Ticket, (Id, Consumer)>
    var snapshot: set<nat>
    var settled: bool

    ghost function View(): Sys
      reads this, store, store.book, store.permit
    {
      Sys(store.View(), reserved, ops, tracked, owners, lineage, closed, poisoned, asked, snapshot, settled)
    }

    ghost predicate Valid()
      reads this, store, store.book, store.permit
    {
      store.book.Valid()
    }

    constructor (limits: Limits)
      ensures Valid() && View() == EmptySys(limits)
    {
      store := new ArtifactStore(limits);
      reserved, ops, tracked, owners, lineage := map[], [], {}, map[], map[];
      closed, poisoned, asked, snapshot, settled := false, false, map[], {}, false;
    }

    /** Store an operation's new state; its release runs the token-bound closure. */
    method Land(t: nat, op: Op)
      requires t < |ops|
      modifies this`ops, this`reserved, this`owners, this`tracked
      ensures View() == M.Land(old(View()), t, op)
    {
      var freed := op.released && !ops[t].released;
      ops := ops[t := op];
      if !freed { return; }
      if op.id in reserved && reserved[op.id] == t { reserved := reserved - {op.id}; }
      if op.id in owners && owners[op.id].token == t { owners := owners - {op.id}; }
      tracked := tracked - {t};
    }

    method CreateOperation(owner: Owner, id: Id) returns (created: bool)
      modifies this`reserved, this`ops, this`tracked, this`lineage
      ensures (View(), created) == Create(old(View()), owner, id)
    {
      if closed || poisoned { return false; }
      if owner.DriveOwned? && (owner.consumer, owner.controller) in lineage && lineage[(owner.consumer, owner.controller)] == Fenced { return false; }
      if id in reserved { return false; }
      reserved := reserved[id := |ops|];
      if owner.DriveOwned? && (owner.consumer, owner.controller) !in lineage {
        lineage := lineage[(owner.consumer, owner.controller) := Active];
      }
      tracked := tracked + {|ops|};
      ops := ops + [NewOp(id, owner)];
      created := true;
    }

    /** `onDiscard`: the token-bound operation reacts, discarding its own staged file on the way. */
    method Notify(id: Id, closeOwned: bool, nested: Fs)
      requires Valid()
      modifies this`ops, this`reserved, this`owners, this`tracked, store, store.book, store.permit
      ensures Valid() && View() == M.Notify(old(View()), id, closeOwned, nested)
    {
      hide M.Land, NoteDiscarded, QuietDiscard, Conserved;
      if id !in reserved || reserved[id] !in tracked || reserved[id] >= |ops| { return; }
      var t := reserved[id];
      if ops[t].state.Committed? || ops[t].state.Invalidated? {
        Land(t, NoteDiscarded(ops[t], closeOwned, Clean));
        return;
      }
      var a := DiscardQuietly(id, nested);
      Land(t, NoteDiscarded(ops[t], closeOwned, a));
    }

    /** The discard nested in a notification: its record is already gone, so it announces nothing. */
    method DiscardQuietly(id: Id, fs: Fs) returns (a: Answer)
      requires Valid()
      modifies store, store.book, store.permit
      ensures Valid() && (store.View(), a) == QuietDiscard(old(store.View()), id, fs)
    {
      hide DeletePhysical, FreeCommitted, Conserved;
      if store.closeRequested || store.disposed { return Refused; }
      if store.unhealthy { return Failed; }
      if id in store.records && store.records[id].status == Consuming { return Refused; }
      var d := store.DeletePhysical(id, fs);
      if d.None? { return Failed; }
      store.GiveBack(id);
      a := Clean;
    }

    /** Forget, announce if there is anything to announce, then give the capacity back. */
    method ReleaseDiscarded(id: Id, d: Deleted, nested: Fs)
      requires Valid()
      modifies this`ops, this`reserved, this`owners, this`tracked, store, store.book, store.permit
      ensures Valid() && View() == LogicalHalf(old(View()), id, d, nested)
    {
      hide M.Notify, Forget, FreeCommitted, Conserved;
      store.ForgetRecord(id, d);
      if d.existed || d.newlyDiscardedInflight { Notify(id, false, nested); }
      store.GiveBack(id);
    }

    method DiscardOwned(id: Id, d: Disk) returns (ok: bool)
      requires Valid()
      modifies this`ops, this`reserved, this`owners, this`tracked, store, store.book, store.permit
      ensures Valid() && (View(), ok) == M.DiscardOwned(old(View()), id, d)
    {
      hide LogicalHalf, DeletePhysical, Conserved;
      var deleted := store.DeletePhysical(id, d.outer);
      if deleted.None? { return false; }
      ReleaseDiscarded(id, deleted.value, d.nested);
      ok := true;
    }

    method Discard(id: Id, d: Disk) returns (a: Answer)
      requires Valid()
      modifies this`ops, this`reserved, this`owners, this`tracked, store, store.book, store.permit
      ensures Valid() && (View(), a) == M.Discard(old(View()), id, d)
    {
      hide M.DiscardOwned, Conserved;
      if store.closeRequested || store.disposed { return Refused; }
      if store.unhealthy { return Failed; }
      if id in store.records && store.records[id].status == Consuming { return Refused; }
      var ok := DiscardOwned(id, d);
      a := if ok then Clean else Failed;
    }

    /** `invalidate`: retire, discard what is staged, release if nothing else is waited for. */
    method Invalidate(t: nat, reason: Reason, d: Disk)
      requires Valid() && t < |ops|
      modifies this`ops, this`reserved, this`owners, this`tracked, store, store.book, store.permit
      ensures Valid() && View() == InvalidateOp(old(View()), t, reason, d)
    {
      hide M.Discard, M.Land, Retire, Answered, TryRelease, Conserved;
      if ops[t].state.Committed? || ops[t].state.Invalidated? { return; }
      var id := ops[t].id;
      ops := ops[t := Retire(ops[t], reason)];
      var a := Discard(id, d);
      if t < |ops| { Land(t, TryRelease(Answered(ops[t], a))); }
    }

    /** Retire the snapshot `doomed`, in creation order. */
    method RetireAll(doomed: set<nat>, n: nat, disks: nat -> Disk)
      requires Valid()
      modifies this`ops, this`reserved, this`owners, this`tracked, store, store.book, store.permit
      ensures Valid() && View() == RetireBelow(old(View()), doomed, n, disks)
    {
      hide InvalidateOp, Conserved;
      for k := 0 to n
        invariant Valid() && View() == RetireBelow(old(View()), doomed, k, disks)
      {
        if k in doomed && k < |ops| { Invalidate(k, RuntimeInvalidated, disks(k)); }
      }
    }

    /** The fence goes up first; then every generation of the lineage is retired. */
    method InvalidateController(c: Consumer, d: Controller, disks: nat -> Disk)
      requires Valid()
      modifies this`lineage, this`ops, this`reserved, this`owners, this`tracked, store, store.book, store.permit
      ensures Valid() && View() == Fence(old(View()), c, d, disks)
    {
      hide RetireBelow, Conserved;
      lineage := lineage[(c, d) := Fenced];
      var doomed := set t | t in tracked && t < |ops| && OfLineage(ops[t].owner, c, d);
      assert doomed == OpsOfLineage(View(), c, d);
      RetireAll(doomed, |ops|, disks);
    }

    /** Fence, then one attempt on every committed artifact of the lineage; neither a failure nor a refusal stops it. */
    method DiscardController(c: Consumer, d: Controller, disks: nat -> Disk, order: seq<Id>, fs: Id -> Disk)
      returns (a: Answer, ghost answers: seq<Answer>)
      requires Valid()
      modifies this`lineage, this`poisoned, this`ops, this`reserved, this`owners, this`tracked, store, store.book, store.permit
      ensures Valid() && (View(), a) == DiscardLineage(old(View()), c, d, disks, order, fs)
      ensures answers == DiscardEach(Fence(old(View()), c, d, disks), order, fs).1 && |answers| == |order|
    {
      hide Fence, M.Discard, Conserved;
      answers := [];
      InvalidateController(c, d, disks);
      ghost var start := View();
      ghost var all := DiscardEach(start, order, fs).1;
      assert order[0..] == order && answers + all == all;
      var refused, failed := false, false;
      var i := 0;
      while i < |order|
        invariant 0 <= i <= |order| && Valid() && poisoned == old(poisoned) && |answers| == i
        invariant (failed <==> Failed in answers) && (refused <==> Refused in answers)
        invariant DiscardEach(start, order, fs) == (var r := DiscardEach(View(), order[i..], fs); (r.0, answers + r.1))
      {
        assert order[i..][1..] == order[i + 1..];
        var answer := Discard(order[i], fs(order[i]));
        ghost var rest := DiscardEach(View(), order[i + 1..], fs).1;
        assert answers + ([answer] + rest) == (answers + [answer]) + rest;
        answers := answers + [answer];
        if answer == Failed { failed := true; } else if answer == Refused { refused := true; }
        i := i + 1;
      }
      if failed { poisoned := true; }
      a := if failed then Failed else if refused then Refused else Clean;
    }

    /** The commit of `seal`: the owner ledger is written only here, and only for an available artifact. */
    method CommitOperation(t: nat)
      requires t < |ops| && ops[t].state == Sealing && ops[t].active == 0
      modifies this`ops, this`reserved, this`owners, this`tracked
      ensures View() == CommitAt(old(View()), t)
    {
      hide M.Land, Commit, CommitOutcome;
      if CommitOutcome(ops[t]) == Available { owners := owners[ops[t].id := Entry(t, ops[t].owner)]; }
      Land(t, Commit(ops[t]));
    }

    /** The driver answered for its copy; a copy not confirmed gone poisons the runtime. */
    method CleanupSettled(t: nat, confirmed: bool)
      requires t < |ops|
      modifies this`ops, this`reserved, this`owners, this`tracked, this`poisoned
      ensures View() == CleanupSettlesAt(old(View()), t, confirmed)
    {
      hide M.Land, FinishCleanup;
      var unconfirmed := ops[t].cleanup == Running && !confirmed;
      Land(t, FinishCleanup(ops[t], confirmed));
      if unconfirmed { poisoned, tracked := true, tracked - {t}; }
    }

    /** Retrieval is authorized from the owner ledger, once, before the store is asked. */
    method AcquireResponseLease(id: Id, c: Consumer, controller: Option<Controller>, identityHolds: bool) returns (r: LeaseResult)
      modifies this`asked, store, store.permit
      ensures (View(), r) == AcquireLease(old(View()), id, c, controller, identityHolds)
    {
      hide LeaseEnter;
      if id !in owners || owners[id].owner.consumer != c { return NoLease; }
      if owners[id].owner.DriveOwned? {
        var k := owners[id].owner.controller;
        if controller != Some(k) || (c, k) !in lineage || lineage[(c, k)] != Active { return NoLease; }
      }
      r := store.Lease(id, c, identityHolds);
      if r.Queued? { asked := asked[r.ticket := (id, c)]; }
    }

    /** The close-owned notifications, one per swept record. */
    method NotifySweptRecords(ids: seq<Id>)
      requires Valid()
      modifies this`ops, this`reserved, this`owners, this`tracked, store, store.book, store.permit
      ensures Valid() && View() == NotifySwept(old(View()), ids)
    {
      hide M.Notify, Conserved;
      var i := 0;
      while i < |ids|
        invariant 0 <= i <= |ids| && Valid()
        invariant NotifySwept(old(View()), ids) == NotifySwept(View(), ids[i..])
      {
        assert ids[i..][1..] == ids[i + 1..];
        Notify(ids[i], true, Fs(false, false));
        i := i + 1;
      }
    }

    /** The fence, every tracked generation, then the store; asking again changes nothing. */
    method Close(disks: nat -> Disk, o: CloseFs)
      requires Valid()
      modifies this, store, store.book, store.permit
      ensures Valid() && View() == CloseRuntime(old(View()), disks, o)
    {
      hide RetireBelow, CloseRequest, NotifySwept, Conserved;
      if closed { return; }
      closed, snapshot := true, tracked;
      RetireAll(tracked, |ops|, disks);
      var told := store.Close(o);
      NotifySweptRecords(told);
    }

    /** Tell, in creation order, every operation the close had tracked what the one close came to. */
    method TellAll(n: nat, failed: bool)
      requires Valid()
      modifies this`ops, this`reserved, this`owners, this`tracked
      ensures Valid() && View() == SettleBelow(old(View()), n, failed)
    {
      hide M.Land, SettleStoreClose, Conserved;
      for k := 0 to n
        invariant Valid() && View() == SettleBelow(old(View()), k, failed) && snapshot == old(snapshot)
      {
        SnapshotStays(old(View()), k, failed);
        if k in snapshot && k < |ops| { Land(k, SettleStoreClose(ops[k], failed)); }
      }
    }
  }

  lemma {:induction false} SnapshotStays(sys: Sys, n: nat, failed: bool)
    ensures SettleBelow(sys, n, failed).snapshot == sys.snapshot
    decreases n
  {
    hide SettleStoreClose;
    if n > 0 { SnapshotStays(sys, n - 1, failed); }
  }
}
