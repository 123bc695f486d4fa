/** Three ledgers agree: what the operations, the runtime and the store say about one id. */
module RuntimeInvariants {
  import opened Common
  import opened ReservationLedger
  import opened PermitModel
  import opened OperationModel
  import opened StoreModel
  import opened RuntimeModel

  predicate Live(op: Op) { !Terminal(op) }

  /** The operation has a staged artifact, or its capture just published one. */
  predicate HasStaged(op: Op) { op.provisional || op.job == Captured(true) }

  /** Somebody else still owes this operation news about its bytes, or they are lost for good. */
  predicate Owed(op: Op) { op.waitingForArtifact || op.cleanupFailed }

  predicate SweptClean(s: Store) { s.result == Some(CleanClose) }

  /**
   What the three ledgers must say about an unreleased operation `op` sitting at token `t`. It is a
   relation, so that it can be asked of a state that is about to be stored.
   */
  ghost predicate Agrees(sys: Sys, t: nat, op: Op) {
    && (op.job == Capturing <==> op.id in sys.store.inflight)
    && (op.id in sys.store.inflight ==>
          && sys.store.inflight[op.id].consumer == op.owner.consumer
          && (Terminal(op) ==> op.id in sys.store.tombstones || Owed(op)))
    && (op.id in sys.store.records ==>
          && sys.store.records[op.id].consumer == op.owner.consumer
          && (if Live(op) then HasStaged(op) else Owed(op)))
    && (Live(op) && HasStaged(op) ==> op.id in sys.store.records)
    && (op.state == Committed(Available) <==> op.id in sys.owners)
    && (op.id in sys.owners ==> sys.owners[op.id] == Entry(t, op.owner))
    && (op.state == Committed(Available) && !op.released && !SweptClean(sys.store) ==>
          && op.id in sys.store.records
          && op.waitingForArtifact && !op.refusalPending && !op.cleanupFailed)
  }

  /** What holds of every operation, released or not. */
  ghost predicate Sound(sys: Sys, t: nat, op: Op) {
    && OpInv(op)
    && (FencedOwner(sys, op.owner) || sys.closed ==> Terminal(op))
    && (op.storeClose == Some(false) ==> SweptClean(sys.store))
    && (op.owner.DriveOwned? ==> (op.owner.consumer, op.owner.controller) in sys.lineage)
    && (!op.released && t !in sys.tracked ==> op.cleanupUnconfirmed)
  }

  ghost predicate TokenOk(sys: Sys, t: nat)
    requires t < |sys.ops|
  {
    var op := sys.ops[t];
    && Sound(sys, t, op)
    && (t in sys.tracked ==> !op.released)
    && (!op.released ==> op.id in sys.reserved && sys.reserved[op.id] == t && Agrees(sys, t, op))
  }

  /** Nothing in the store or the owner ledger belongs to an id nobody holds. */
  ghost predicate IdOk(sys: Sys, id: Id) {
    && (id in sys.reserved ==>
          && sys.reserved[id] < |sys.ops|
          && sys.ops[sys.reserved[id]].id == id
          && !sys.ops[sys.reserved[id]].released)
    && (id in sys.owners || id in sys.store.records || id in sys.store.inflight ==> id in sys.reserved)
  }

  ghost predicate Tokens(sys: Sys) {
    && (forall t | 0 <= t < |sys.ops| :: TokenOk(sys, t))
    && (forall t | t in sys.tracked :: t < |sys.ops|)
  }

  ghost predicate SysCore(sys: Sys) {
    && StoreInv(sys.store)
    && Tokens(sys)
    && (forall id :: IdOk(sys, id))
    && (sys.store.closeRequested ==> sys.closed)
  }

  ghost predicate SysInv(sys: Sys) {
    SysCore(sys) && AtRest(sys.store)
  }

  // ---------------------------------------------------------------------------------------------
  // One id at a time
  // ---------------------------------------------------------------------------------------------

  /** Two stores that differ, as far as the runtime can tell, about one id only. */
  ghost predicate Local(s: Store, s': Store, id: Id) {
    && (forall k | k != id :: k in s.records <==> k in s'.records)
    && (forall k | k != id && k in s.records :: s'.records[k].consumer == s.records[k].consumer)
    && (forall k | k != id :: k in s.inflight <==> k in s'.inflight)
    && (forall k | k != id && k in s.inflight :: s'.inflight[k] == s.inflight[k])
    && (forall k | k != id :: k in s.tombstones <==> k in s'.tombstones)
    && s'.result == s.result
    && s'.closeRequested == s.closeRequested
  }

  /** Everything is in order except, perhaps, token `t` and the id it holds. */
  ghost predicate OffBy(sys: Sys, t: nat) {
    && t < |sys.ops|
    && !sys.ops[t].released
    && (sys.ops[t].id in sys.reserved && sys.reserved[sys.ops[t].id] == t)
    && StoreInv(sys.store)
    && (forall k | 0 <= k < |sys.ops| && k != t :: TokenOk(sys, k))
    && (forall id | id != sys.ops[t].id :: IdOk(sys, id))
    && (forall k | k in sys.tracked :: k < |sys.ops|)
    && (sys.store.closeRequested ==> sys.closed)
  }

  lemma CoreIsOffBy(sys: Sys, t: nat)
    requires SysCore(sys) && t < |sys.ops| && !sys.ops[t].released
    ensures OffBy(sys, t) && Agrees(sys, t, sys.ops[t]) && Sound(sys, t, sys.ops[t])
  {
    assert TokenOk(sys, t);
  }

  /** A second operation holding the same id would have to be the same token. */
  lemma OthersHoldOtherIds(sys: Sys, t: nat, k: nat)
    requires OffBy(sys, t) && k < |sys.ops| && k != t && !sys.ops[k].released
    ensures sys.ops[k].id != sys.ops[t].id
  {
    assert TokenOk(sys, k);
  }

  /** Moving the store under one id disturbs no other operation. */
  lemma OffByStore(sys: Sys, t: nat, st: Store)
    requires OffBy(sys, t) && StoreInv(st) && Local(sys.store, st, sys.ops[t].id)
    ensures OffBy(sys.(store := st), t)
  {
    hide StoreInv, OpInv;
    var sys' := sys.(store := st);
    forall k | 0 <= k < |sys'.ops| && k != t ensures TokenOk(sys', k) {
      assert TokenOk(sys, k);
      if !sys.ops[k].released { OthersHoldOtherIds(sys, t, k); }
    }
    forall id | id != sys'.ops[t].id ensures IdOk(sys', id) {
      assert IdOk(sys, id);
    }
  }

  lemma LandKeepsToken(sys: Sys, t: nat, op: Op, k: nat)
    requires OffBy(sys, t) && op.id == sys.ops[t].id && op.owner == sys.ops[t].owner
    requires Sound(sys, t, op) && Agrees(sys, t, op)
    requires k < |sys.ops|
    ensures k < |Land(sys, t, op).ops| && TokenOk(Land(sys, t, op), k)
  {
    hide StoreInv, OpInv, IdOk;
    if k != t {
      assert TokenOk(sys, k);
      if !sys.ops[k].released { OthersHoldOtherIds(sys, t, k); }
    }
  }

  lemma LandKeepsId(sys: Sys, t: nat, op: Op, k: Id)
    requires OffBy(sys, t) && op.id == sys.ops[t].id && op.owner == sys.ops[t].owner
    requires Sound(sys, t, op) && Agrees(sys, t, op)
    ensures IdOk(Land(sys, t, op), k)
  {
    hide StoreInv, OpInv, TokenOk;
    if op.released {
      ReleasedHoldsNothing(sys, t, op);
    }
    if k != op.id {
      assert IdOk(sys, k);
    }
  }

  /** The release point: landing a sound state that agrees with the store restores every invariant. */
  lemma LandKeeps(sys: Sys, t: nat, op: Op)
    requires OffBy(sys, t) && op.id == sys.ops[t].id && op.owner == sys.ops[t].owner
    requires Sound(sys, t, op) && Agrees(sys, t, op)
    ensures SysCore(Land(sys, t, op))
    ensures Land(sys, t, op).store == sys.store && |Land(sys, t, op).ops| == |sys.ops|
    ensures forall k | 0 <= k < |sys.ops| :: Land(sys, t, op).ops[k] == if k == t then op else sys.ops[k]
  {
    hide StoreInv, TokenOk, IdOk, Sound, Agrees;
    forall k | 0 <= k < |sys.ops| ensures TokenOk(Land(sys, t, op), k) {
      LandKeepsToken(sys, t, op, k);
    }
    forall k ensures IdOk(Land(sys, t, op), k) {
      LandKeepsId(sys, t, op, k);
    }
  }

  /** No release is early: an operation that may release has no record, no copy and no owner entry left. */
  lemma ReleasedHoldsNothing(sys: Sys, t: nat, op: Op)
    requires Sound(sys, t, op) && Agrees(sys, t, op) && op.released
    ensures op.id !in sys.store.records && op.id !in sys.store.inflight
  {
  }
}
