/** Every event of the runtime keeps the three ledgers in agreement. */
module RuntimeProofs {
  import opened Common
  import opened ReservationLedger
  import opened PermitModel
  import opened OperationModel
  import opened StoreModel
  import opened RuntimeModel
  import opened RuntimeInvariants

  lemma LandingNothing(sys: Sys, t: nat)
    requires t < |sys.ops|
    ensures Land(sys, t, sys.ops[t]) == sys
  {
    assert sys.ops[t := sys.ops[t]] == sys.ops;
  }

  /** A state that is in order off one token, and in order there too, is in order. */
  lemma BackInOrder(sys: Sys, t: nat)
    requires OffBy(sys, t) && Sound(sys, t, sys.ops[t]) && Agrees(sys, t, sys.ops[t])
    ensures SysCore(sys)
  {
    LandingNothing(sys, t);
    LandKeeps(sys, t, sys.ops[t]);
  }

  /** What the runtime can see of the store did not move. */
  predicate Unseen(s: Store, s': Store) {
    && s'.inflight == s.inflight && s'.tombstones == s.tombstones
    && s'.result == s.result && s'.closeRequested == s.closeRequested
    && s'.records.Keys == s.records.Keys
    && forall k | k in s.records :: s'.records[k].consumer == s.records[k].consumer
  }

  lemma UnseenKeeps(sys: Sys, st: Store)
    requires SysCore(sys) && StoreInv(st) && Unseen(sys.store, st)
    ensures SysCore(sys.(store := st))
  {
    hide StoreInv, OpInv;
    var sys' := sys.(store := st);
    forall t | 0 <= t < |sys'.ops| ensures TokenOk(sys', t) {
      assert TokenOk(sys, t);
    }
    forall id ensures IdOk(sys', id) {
      assert IdOk(sys, id);
    }
  }

  // -- discards -----------------------------------------------------------------------------------

  /** Everything a discard of `id` may touch in the runtime. */
  ghost predicate OnlyId(sys: Sys, sys': Sys, id: Id) {
    && |sys'.ops| == |sys.ops|
    && (forall k | 0 <= k < |sys.ops| :: sys'.ops[k].id == sys.ops[k].id && sys'.ops[k].owner == sys.ops[k].owner)
    && (forall k | 0 <= k < |sys.ops| && sys.ops[k].id != id :: sys'.ops[k] == sys.ops[k])
    && (forall k | 0 <= k < |sys.ops| && Terminal(sys.ops[k]) :: sys'.ops[k].state == sys.ops[k].state)
    && (forall k | 0 <= k < |sys.ops| :: sys'.ops[k].job == sys.ops[k].job)
    && (forall k | k != id :: (k in sys'.owners <==> k in sys.owners) && (k in sys.owners ==> sys'.owners[k] == sys.owners[k]))
    && (forall k | k in sys'.owners :: k in sys.owners && sys'.owners[k] == sys.owners[k])
    && sys'.tracked <= sys.tracked
    && (forall k | k in sys.tracked && k !in sys'.tracked :: k < |sys.ops| && sys'.ops[k].released)
    && sys'.lineage == sys.lineage && sys'.closed == sys.closed && sys'.poisoned == sys.poisoned
    && sys'.asked == sys.asked && sys'.snapshot == sys.snapshot && sys'.settled == sys.settled
  }

  lemma LandTouchesOneId(sys: Sys, t: nat, op: Op)
    requires t < |sys.ops| && op.id == sys.ops[t].id && op.owner == sys.ops[t].owner && op.job == sys.ops[t].job
    requires forall k | 0 <= k < |sys.ops| && sys.ops[k].id == op.id && k != t :: sys.ops[k].released
    requires Terminal(sys.ops[t]) ==> op.state == sys.ops[t].state
    ensures OnlyId(sys, Land(sys, t, op), op.id)
    ensures op.released && !sys.ops[t].released && op.id in sys.owners && sys.owners[op.id].token == t ==> op.id !in Land(sys, t, op).owners
  {
  }

  lemma OnlyOneHolder(sys: Sys, t: nat)
    requires OffBy(sys, t)
    ensures forall k | 0 <= k < |sys.ops| && sys.ops[k].id == sys.ops[t].id && k != t :: sys.ops[k].released
  {
    forall k | 0 <= k < |sys.ops| && sys.ops[k].id == sys.ops[t].id && k != t ensures sys.ops[k].released {
      if !sys.ops[k].released { OthersHoldOtherIds(sys, t, k); }
    }
  }

  /** A record, or a running copy, was just proved deleted; its operation has not heard yet. */
  ghost predicate JustDeleted(sys: Sys, id: Id) {
    && id in sys.reserved && OffBy(sys, sys.reserved[id]) && sys.ops[sys.reserved[id]].id == id
    && id !in sys.store.records && (id in sys.store.inflight ==> id in sys.store.tombstones)
    && var t := sys.reserved[id]; var op := sys.ops[t];
      && Sound(sys, t, op)
      && (op.job == Capturing <==> id in sys.store.inflight)
      && (id in sys.store.inflight ==> sys.store.inflight[id].consumer == op.owner.consumer)
      && (op.state == Committed(Available) <==> id in sys.owners)
      && (id in sys.owners ==> sys.owners[id] == Entry(t, op.owner))
      && (op.state == Committed(Available) && !SweptClean(sys.store) ==> t in sys.tracked && op.waitingForArtifact && !op.refusalPending && !op.cleanupFailed)
      && (t !in sys.tracked ==> Terminal(op))
  }

  lemma DeletedAgrees(sys: Sys, id: Id, op: Op)
    requires JustDeleted(sys, id) && Terminal(op) && op.id == id
    requires var was := sys.ops[sys.reserved[id]];
      && op.owner == was.owner && op.job == was.job
      && (op.state == Committed(Available) <==> was.state == Committed(Available))
      && (op.state == Committed(Available) && !SweptClean(sys.store) ==> op.released)
    ensures Agrees(sys, sys.reserved[id], op)
  {
    hide OffBy, Sound;
  }

  /** The reaction of the operation whose record, or running copy, was just proved deleted. */
  lemma NotifyKeeps(sys: Sys, id: Id, nested: Fs)
    requires JustDeleted(sys, id) && (sys.store.permit.heldId != Some(id) || sys.store.permit.settle.None?)
    ensures var sys' := Notify(sys, id, false, nested);
      && SysCore(sys') && OnlyId(sys, sys', id)
      && Unseen(sys.store, sys'.store) && sys'.store.records == sys.store.records
      && Undisturbed(sys.store, sys'.store)
      && (AtRest(sys.store) ==> AtRest(sys'.store))
      && Terminal(sys'.ops[sys.reserved[id]])
      && (sys.ops[sys.reserved[id]].state == Committed(Available) && !SweptClean(sys.store) ==> id !in sys'.owners)
  {
    hide StoreInv, AtRest, QuietDiscard, OpInv, Invalidate, NoteDiscarded, IdOk, Land, OnlyId, Agrees, SysCore;
    var t := sys.reserved[id];
    var op := sys.ops[t];
    OnlyOneHolder(sys, t);
    if t !in sys.tracked {
      DeletedAgrees(sys, id, op);
      BackInOrder(sys, t);
      LandingNothing(sys, t);
      LandTouchesOneId(sys, t, op);
    } else if Terminal(op) {
      NoteKeepsSound(sys, t, op, Clean);
      var op' := NoteDiscarded(op, false, Clean);
      DeletedAgrees(sys, id, op');
      LandKeeps(sys, t, op');
      LandTouchesOneId(sys, t, op');
    } else {
      QuietDiscardKeeps(sys.store, id, nested);
      var (st, a) := QuietDiscard(sys.store, id, nested);
      var sys1 := sys.(store := st);
      OffByStore(sys, t, st);
      NoteKeepsSound(sys1, t, op, a);
      var op' := NoteDiscarded(op, false, a);
      DeletedAgrees(sys1, id, op');
      LandKeeps(sys1, t, op');
      LandTouchesOneId(sys1, t, op');
      OnlyIdIgnoresStore(sys, st, Land(sys1, t, op'), id);
    }
  }

  lemma OnlyIdIgnoresStore(sys: Sys, st: Store, sys': Sys, id: Id)
    requires OnlyId(sys.(store := st), sys', id)
    ensures OnlyId(sys, sys', id)
  {
  }

  /** An ordinary deletion retires a live operation, and releases a committed one that waited for it. */
  lemma NoteKeepsSound(sys: Sys, t: nat, op: Op, a: Answer)
    requires Sound(sys, t, op) && t in sys.tracked
    ensures var op' := NoteDiscarded(op, false, a);
      && Sound(sys, t, op') && Terminal(op') && op'.id == op.id && op'.owner == op.owner && op'.job == op.job
      && (Terminal(op) ==> op'.state == op.state)
      && (Live(op) ==> op'.state.Invalidated?)
      && (op.state == Committed(Available) && op.waitingForArtifact && !op.cleanupFailed ==> op'.released)
  {
    hide Invalidate;
    NoteDiscardedKeepsOpInv(op, false, a);
    if Live(op) {
      InvalidateKeepsOpInv(op, LifecycleRace, a);
      InvalidateIsInvalidated(op, LifecycleRace, a);
    }
  }

  lemma InvalidateIsInvalidated(op: Op, reason: Reason, a: Answer)
    requires !Terminal(op)
    ensures Invalidate(op, reason, a).state == Invalidated(reason)
    ensures Invalidate(op, reason, a).storeClose == op.storeClose
  {
    hide Retire, Answered, TryRelease;
    RetireKeepsAnswer(op, reason);
    AnsweredKeepsState(Retire(op, reason), a);
  }

  lemma RetireKeepsAnswer(op: Op, reason: Reason)
    requires !Terminal(op)
    ensures Retire(op, reason).state == Invalidated(reason) && Retire(op, reason).storeClose == op.storeClose
  {
  }

  lemma AnsweredKeepsState(op: Op, a: Answer)
    ensures Answered(op, a).state == op.state && Answered(op, a).storeClose == op.storeClose
    ensures var op' := TryRelease(Answered(op, a)); op'.state == op.state && op'.storeClose == op.storeClose
  {
    var op' := Answered(op, a);
    assert op'.state == op.state && op'.storeClose == op.storeClose;
  }

  /** How a store looks to the runtime after a deletion of `id` was proven, or was not. */
  ghost predicate DeletedFrom(s: Store, s': Store, id: Id, ok: bool) {
    && s'.inflight == s.inflight
    && s'.closeRequested == s.closeRequested && s'.result == s.result
    && (ok ==> id !in s'.records && (id in s.inflight ==> id in s'.tombstones))
    && (ok ==> s'.records.Keys == s.records.Keys - {id})
    && (!ok ==> s'.records == s.records && s'.tombstones == s.tombstones && s'.unhealthy)
    && (forall k | k in s'.records :: k in s.records && s'.records[k] == s.records[k])
    && Undisturbed(s, s')
  }

  /** Whatever the store or the owner ledger has for an id, an unreleased operation holds that id. */
  lemma HeldById(sys: Sys, id: Id)
    requires SysCore(sys) && (id in sys.store.records || id in sys.store.inflight || id in sys.owners)
    ensures id in sys.reserved && sys.reserved[id] < |sys.ops|
    ensures sys.ops[sys.reserved[id]].id == id && !sys.ops[sys.reserved[id]].released
    ensures TokenOk(sys, sys.reserved[id]) && Agrees(sys, sys.reserved[id], sys.ops[sys.reserved[id]])
  {
    assert IdOk(sys, id);
    assert TokenOk(sys, sys.reserved[id]);
  }

  function Facts(s: Store, id: Id): Deleted {
    Deleted(id in s.records, id in s.inflight && id !in s.tombstones)
  }

  lemma ForgetIsLocal(s: Store, id: Id)
    requires StoreInv(s)
    ensures var s' := Forget(s, id, Facts(s, id));
      && StoreInv(s') && Local(s, s', id) && id !in s'.records && s'.inflight == s.inflight
      && s'.result == s.result && s'.closeRequested == s.closeRequested && s'.permit == s.permit && s'.unhealthy == s.unhealthy
      && s'.records == s.records - {id}
      && (id in s.inflight ==> id in s'.tombstones)
      && (AtRest(s) && s.permit.heldId != Some(id) ==> AtRest(s'))
  {
    hide StoreInv, AtRest;
    ForgetKeeps(s, id);
  }

  lemma ForgottenIsJustDeleted(sys: Sys, id: Id)
    requires SysCore(sys) && (id in sys.store.records || id in sys.store.inflight)
    ensures id in sys.reserved
    ensures JustDeleted(sys.(store := Forget(sys.store, id, Facts(sys.store, id))), id)
  {
    hide StoreInv, TokenOk, IdOk, OpInv, OffBy, SysCore, Forget, Local, Facts, AtRest;
    HeldById(sys, id);
    var t := sys.reserved[id];
    CoreHasStore(sys);
    CoreIsOffBy(sys, t);
    ForgetIsLocal(sys.store, id);
    OffByStore(sys, t, Forget(sys.store, id, Facts(sys.store, id)));
    if t !in sys.tracked { UntrackedIsInvalidated(sys, t); }
  }

  lemma UntrackedIsInvalidated(sys: Sys, t: nat)
    requires SysCore(sys) && t < |sys.ops| && !sys.ops[t].released && t !in sys.tracked
    ensures sys.ops[t].state.Invalidated?
  {
    assert TokenOk(sys, t);
  }

  lemma ForgettingNothing(s: Store, id: Id)
    requires id !in s.records && (id in s.inflight ==> id in s.tombstones)
    ensures Forget(s, id, Deleted(false, false)) == s
  {
  }

  lemma AnnouncedIsDeletedFrom(s: Store, s': Store, id: Id)
    requires StoreInv(s)
    requires var st := Forget(s, id, Facts(s, id)); Unseen(st, s') && s'.records == st.records && Undisturbed(st, s')
    ensures DeletedFrom(s, s', id, true)
  {
    hide StoreInv, AtRest;
    ForgetIsLocal(s, id);
  }

  /** Forgetting a record, or a running copy, and telling its operation. */
  lemma AnnouncedKeeps(sys: Sys, id: Id, nested: Fs)
    requires SysCore(sys) && (sys.store.permit.heldId != Some(id) || sys.store.permit.settle.None?)
    requires id in sys.store.records || id in sys.store.inflight
    ensures var st := Forget(sys.store, id, Facts(sys.store, id));
      var sys' := Notify(sys.(store := st), id, false, nested);
      && SysCore(sys') && OnlyId(sys, sys', id) && DeletedFrom(sys.store, sys'.store, id, true)
      && (AtRest(sys.store) && sys.store.permit.heldId != Some(id) ==> AtRest(sys'.store))
      && (id in sys.owners && !SweptClean(sys.store) ==> id !in sys'.owners)
  {
    hide *;
    CoreHasStore(sys);
    ForgetIsLocal(sys.store, id);
    if id in sys.owners && !SweptClean(sys.store) { CommittedHasEntry(sys, id); }
    var st := Forget(sys.store, id, Facts(sys.store, id));
    var sys1 := sys.(store := st);
    ForgottenIsJustDeleted(sys, id);
    NotifyKeeps(sys1, id, nested);
    SameResultSweptAlike(sys.store, st);
    var sys' := Notify(sys1, id, false, nested);
    OnlyIdIgnoresStore(sys, st, sys', id);
    AnnouncedIsDeletedFrom(sys.store, sys'.store, id);
  }

  lemma QuietKeeps(sys: Sys, id: Id)
    requires SysCore(sys) && !Notifies(Facts(sys.store, id))
    ensures Forget(sys.store, id, Facts(sys.store, id)) == sys.store
    ensures StoreInv(sys.store) ==> DeletedFrom(sys.store, sys.store, id, true)
    ensures id in sys.owners ==> SweptClean(sys.store)
  {
    hide StoreInv, SysCore, SweptClean, AtRest;
    ForgettingNothing(sys.store, id);
    assert sys.store.records.Keys == sys.store.records.Keys - {id};
    if id in sys.owners && !SweptClean(sys.store) { CommittedHasEntry(sys, id); }
  }

  lemma FreedIsDeletedFrom(s: Store, s2: Store, id: Id)
    requires DeletedFrom(s, s2, id, true)
    requires var s' := FreeCommitted(s2, id); s' == s2.(ledger := s'.ledger) && (AtRest(s2) ==> AtRest(s'))
    ensures DeletedFrom(s, FreeCommitted(s2, id), id, true)
  {
    hide AtRest, FreeCommitted;
  }

  /** A proven deletion up to its notification, included. */
  function Told(sys: Sys, id: Id, nested: Fs): Sys {
    var sys1 := sys.(store := Forget(sys.store, id, Facts(sys.store, id)));
    if Notifies(Facts(sys.store, id)) then Notify(sys1, id, false, nested) else sys1
  }

  lemma Telling(sys: Sys, id: Id, nested: Fs)
    ensures var sys1 := sys.(store := Forget(sys.store, id, Facts(sys.store, id)));
      Told(sys, id, nested) == if Notifies(Facts(sys.store, id)) then Notify(sys1, id, false, nested) else sys1
    ensures var told := Told(sys, id, nested);
      LogicalHalf(sys, id, Facts(sys.store, id), nested) == told.(store := FreeCommitted(told.store, id))
    ensures Notifies(Facts(sys.store, id)) ==> id in sys.store.records || id in sys.store.inflight
  {
    hide Notify, Forget, FreeCommitted;
  }

  lemma ToldKeeps(sys: Sys, id: Id, nested: Fs)
    requires SysCore(sys) && (sys.store.permit.heldId != Some(id) || sys.store.permit.settle.None?)
    ensures var sys' := Told(sys, id, nested);
      && SysCore(sys') && OnlyId(sys, sys', id) && DeletedFrom(sys.store, sys'.store, id, true)
      && (AtRest(sys.store) && sys.store.permit.heldId != Some(id) ==> AtRest(sys'.store))
      && (id in sys.owners && !SweptClean(sys.store) ==> id !in sys'.owners)
  {
    hide *;
    Telling(sys, id, nested);
    if Notifies(Facts(sys.store, id)) {
      AnnouncedKeeps(sys, id, nested);
    } else {
      CoreHasStore(sys);
      QuietKeeps(sys, id);
      OnlyIdReflexive(sys, sys.store, id);
    }
  }

  lemma RecordGone(s: Store, s': Store, id: Id)
    requires DeletedFrom(s, s', id, true)
    ensures id !in s'.records
  {
  }

  /** The logical half: forget, notify once if there is anything to say, give the capacity back. */
  lemma LogicalHalfKeeps(sys: Sys, id: Id, nested: Fs)
    requires SysCore(sys) && (sys.store.permit.heldId != Some(id) || sys.store.permit.settle.None?)
    ensures var sys' := LogicalHalf(sys, id, Facts(sys.store, id), nested);
      && SysCore(sys') && OnlyId(sys, sys', id) && DeletedFrom(sys.store, sys'.store, id, true)
      && (AtRest(sys.store) && sys.store.permit.heldId != Some(id) ==> AtRest(sys'.store))
      && (id in sys.owners && !SweptClean(sys.store) ==> id !in sys'.owners)
  {
    hide *;
    Telling(sys, id, nested);
    ToldKeeps(sys, id, nested);
    var told := Told(sys, id, nested);
    RecordGone(sys.store, told.store, id);
    FreedKeeps(sys, told, id);
    FreedIsDeletedFrom(sys.store, told.store, id);
  }

  lemma SameResultSweptAlike(s: Store, s': Store)
    requires s'.result == s.result
    ensures SweptClean(s') == SweptClean(s)
  {
  }

  lemma DiscardOwnedIs(sys: Sys, id: Id, d: Disk)
    ensures var (st, del) := DeletePhysical(sys.store, id, d.outer);
      DiscardOwned(sys, id, d) == if del.None? then (sys.(store := st), false) else (LogicalHalf(sys.(store := st), id, del.value, d.nested), true)
  {
    hide DeletePhysical, LogicalHalf;
  }

  lemma UndeletedKeeps(sys: Sys, id: Id, fs: Fs)
    requires SysCore(sys) && !sys.store.unhealthy && (sys.store.permit.heldId != Some(id) || sys.store.permit.settle.None?)
    ensures var (st, del) := DeletePhysical(sys.store, id, fs);
      && (del.Some? ==> st == sys.store && del.value == Facts(sys.store, id))
      && (del.None? ==> SysCore(sys.(store := st)) && DeletedFrom(sys.store, st, id, false) && AtRest(st))
  {
    hide StoreInv, AtRest, DeletePhysical, SysCore;
    CoreHasStore(sys);
    DeletePhysicalKeeps(sys.store, id, fs);
    var (st, del) := DeletePhysical(sys.store, id, fs);
    if del.None? { UnseenKeeps(sys, st); }
  }

  lemma DiscardOwnedKeeps(sys: Sys, id: Id, d: Disk)
    requires SysCore(sys) && !sys.store.unhealthy && (sys.store.permit.heldId != Some(id) || sys.store.permit.settle.None?)
    ensures var (sys', ok) := DiscardOwned(sys, id, d);
      && SysCore(sys') && OnlyId(sys, sys', id) && DeletedFrom(sys.store, sys'.store, id, ok)
      && (AtRest(sys.store) && sys.store.permit.heldId != Some(id) ==> AtRest(sys'.store))
      && (ok && id in sys.owners && !SweptClean(sys.store) ==> id !in sys'.owners)
  {
    hide *;
    DiscardOwnedIs(sys, id, d);
    UndeletedKeeps(sys, id, d.outer);
    var (st, del) := DeletePhysical(sys.store, id, d.outer);
    if del.None? {
      OnlyIdReflexive(sys, st, id);
    } else {
      assert sys.(store := st) == sys;
      LogicalHalfKeeps(sys, id, d.nested);
    }
  }

  lemma CoreHasStore(sys: Sys)
    requires SysCore(sys)
    ensures StoreInv(sys.store)
  {
  }

  lemma OnlyIdReflexive(sys: Sys, st: Store, id: Id)
    ensures OnlyId(sys, sys.(store := st), id)
  {
  }

  lemma CommittedHasEntry(sys: Sys, id: Id)
    requires SysCore(sys) && id in sys.owners && !SweptClean(sys.store)
    ensures id in sys.reserved && sys.reserved[id] < |sys.ops|
    ensures sys.ops[sys.reserved[id]].state == Committed(Available) && id in sys.store.records
  {
    assert IdOk(sys, id);
    assert TokenOk(sys, sys.reserved[id]);
  }

  lemma FreedKeeps(sys: Sys, sys2: Sys, id: Id)
    requires SysCore(sys2) && OnlyId(sys, sys2, id) && id !in sys2.store.records
    ensures var sys' := sys2.(store := FreeCommitted(sys2.store, id));
      && SysCore(sys') && OnlyId(sys, sys', id)
      && (AtRest(sys2.store) ==> AtRest(sys'.store))
      && sys'.store == sys2.store.(ledger := sys'.store.ledger)
  {
    hide OnlyId, StoreInv, AtRest, Tokens, IdOk;
    CoreHasStore(sys2);
    FreeCommittedKeeps(sys2.store, id);
    var st := FreeCommitted(sys2.store, id);
    UnseenKeeps(sys2, st);
    assert OnlyId(sys, sys2.(store := st), id) by { OnlyIdSwapsStore(sys, sys2, st, id); }
  }

  lemma OnlyIdSwapsStore(sys: Sys, sys2: Sys, st: Store, id: Id)
    requires OnlyId(sys, sys2, id)
    ensures OnlyId(sys, sys2.(store := st), id)
  {
  }
}
