/** The steps of the runtime one by one, each keeping the three ledgers in agreement. */
module RuntimeSteps {
  import opened Common
  import opened ReservationLedger
  import opened PermitModel
  import opened OperationModel
  import opened StoreModel
  import opened RuntimeModel
  import opened RuntimeInvariants
  import opened RuntimeProofs

  /** Another state of the same operation, at the same token. */
  predicate Same(op: Op, op': Op) {
    op'.id == op.id && op'.owner == op.owner && (op.released ==> op'.released)
  }

  /** A step of one operation that leaves the store alone. */
  lemma LandsKeep(sys: Sys, t: nat, op': Op)
    requires SysInv(sys) && t < |sys.ops| && Same(sys.ops[t], op') && Sound(sys, t, op')
    requires !sys.ops[t].released ==> Agrees(sys, t, op')
    ensures SysInv(Land(sys, t, op'))
    ensures Land(sys, t, op').store == sys.store
    ensures Land(sys, t, op').ops == sys.ops[t := op']
  {
    hide StoreInv, AtRest, Sound, Agrees, IdOk;
    if !sys.ops[t].released {
      CoreIsOffBy(sys, t);
      LandKeeps(sys, t, op');
    } else {
      var sys' := Land(sys, t, op');
      forall k | 0 <= k < |sys'.ops| ensures TokenOk(sys', k) {
        ReleasedLandKeepsToken(sys, t, op', k);
      }
      forall id ensures IdOk(sys', id) {
        ReleasedLandKeepsId(sys, t, op', id);
      }
    }
  }

  lemma ReleasedLandKeepsToken(sys: Sys, t: nat, op': Op, k: nat)
    requires SysInv(sys) && t < |sys.ops| && sys.ops[t].released && Same(sys.ops[t], op') && Sound(sys, t, op')
    requires k < |sys.ops|
    ensures k < |Land(sys, t, op').ops| && TokenOk(Land(sys, t, op'), k)
  {
    hide StoreInv, AtRest, OpInv, IdOk;
    assert TokenOk(sys, k);
  }

  lemma ReleasedLandKeepsId(sys: Sys, t: nat, op': Op, id: Id)
    requires SysInv(sys) && t < |sys.ops| && sys.ops[t].released && Same(sys.ops[t], op')
    ensures IdOk(Land(sys, t, op'), id)
  {
    hide StoreInv, AtRest, TokenOk;
    assert IdOk(sys, id);
  }

  // -- discards and invalidations -----------------------------------------------------------------

  /** A discard answers for one id: clean means gone from every book but the operation's own. */
  lemma DiscardKeeps(sys: Sys, id: Id, d: Disk)
    requires SysInv(sys)
    ensures var (sys', a) := Discard(sys, id, d);
      && SysInv(sys') && OnlyId(sys, sys', id) && sys'.store.result == sys.store.result
      && (a == Refused ==> sys' == sys && Gate(sys.store, id) == Some(Refused))
      && (a == Failed ==> sys'.store.unhealthy)
      && (a == Clean ==> id !in sys'.owners)
      && sys'.store.records.Keys == sys.store.records.Keys - (if a == Clean then {id} else {})
  {
    hide SysCore, AtRest, DiscardOwned, SweptClean, OnlyId, DeletedFrom, StoreInv;
    AtRestIsSafe(sys.store, id);
    CoreHasStore(sys);
    OnlyIdReflexive(sys, sys.store, id);
    if Gate(sys.store, id).None? {
      DiscardOwnedKeeps(sys, id, d);
      var (sys', ok) := DiscardOwned(sys, id, d);
      DeletionSeen(sys, sys', id, ok);
      if SweptClean(sys.store) { UnrequestedIsUnswept(sys.store); }
    }
  }

  lemma DeletionSeen(sys: Sys, sys': Sys, id: Id, ok: bool)
    requires DeletedFrom(sys.store, sys'.store, id, ok) && OnlyId(sys, sys', id)
    ensures sys'.store.result == sys.store.result
    ensures sys'.store.records.Keys == sys.store.records.Keys - (if ok then {id} else {})
    ensures !ok ==> sys'.store.unhealthy
    ensures id in sys'.owners ==> id in sys.owners
  {
    hide AtRest;
  }

  lemma UnrequestedIsUnswept(s: Store)
    requires StoreInv(s) && SweptClean(s)
    ensures s.closeRequested
  {
  }

  /** The notification of an operation that is already terminal and waits for nothing changes nothing. */
  lemma NobodyReacts(sys: Sys, t: nat, id: Id, nested: Fs)
    requires t < |sys.ops| && Terminal(sys.ops[t]) && !sys.ops[t].waitingForArtifact
    requires id in sys.reserved ==> sys.reserved[id] == t
    ensures Notify(sys, id, false, nested) == sys
  {
    hide TryRelease, ArtifactGone, Invalidate, QuietDiscard;
    LandingNothing(sys, t);
  }

  /** So its own discard is the store's alone. */
  lemma DiscardIsDirect(sys: Sys, t: nat, id: Id, d: Disk)
    requires t < |sys.ops| && Terminal(sys.ops[t]) && !sys.ops[t].waitingForArtifact
    requires id in sys.reserved ==> sys.reserved[id] == t
    ensures var (st, a) := DirectDiscard(sys.store, id, d.outer);
      Discard(sys, id, d) == (sys.(store := st), a)
  {
    hide Notify, DeletePhysical, Forget, FreeCommitted;
    if Gate(sys.store, id).None? {
      var (st, del) := DeletePhysical(sys.store, id, d.outer);
      if del.Some? {
        NobodyReacts(sys.(store := Forget(st, id, del.value)), t, id, d.nested);
      }
    } else {
      assert sys.(store := sys.store) == sys;
    }
  }

  /** `invalidate` in one equation: what the store answered, folded into the operation, and one landing. */
  lemma InvalidationLands(sys: Sys, t: nat, reason: Reason, d: Disk)
    requires t < |sys.ops| && !Terminal(sys.ops[t]) && !sys.ops[t].waitingForArtifact && !sys.ops[t].released
    requires sys.ops[t].id in sys.reserved ==> sys.reserved[sys.ops[t].id] == t
    ensures var (st, a) := DirectDiscard(sys.store, sys.ops[t].id, d.outer);
      InvalidateOp(sys, t, reason, d) == Land(sys.(store := st), t, Invalidate(sys.ops[t], reason, a))
  {
    hide DirectDiscard, Discard, TryRelease;
    var op := sys.ops[t];
    var op1 := Retire(op, reason);
    var sys1 := sys.(ops := sys.ops[t := op1]);
    DiscardIsDirect(sys1, t, op.id, d);
    var (st, a) := DirectDiscard(sys.store, op.id, d.outer);
    var op2 := TryRelease(Answered(op1, a));
    assert sys1.ops[t := op2] == sys.ops[t := op2];
  }

  lemma LiveFacts(sys: Sys, t: nat)
    requires SysCore(sys) && t < |sys.ops| && Live(sys.ops[t])
    ensures !sys.ops[t].released && !sys.ops[t].waitingForArtifact && t in sys.tracked
    ensures sys.ops[t].id in sys.reserved && sys.reserved[sys.ops[t].id] == t
  {
    assert TokenOk(sys, t);
  }

  /** What is left of an id once the store answered the discard of its invalidated operation. */
  lemma InvalidatedAgrees(sys: Sys, st: Store, t: nat, op: Op, reason: Reason, a: Answer)
    requires Live(op) && Sound(sys, t, op) && Agrees(sys, t, op) && t in sys.tracked
    requires OnlyDiscard(sys.store, st, op.id, a) && StoreInv(st)
    ensures var sys1 := sys.(store := st); var op' := Invalidate(op, reason, a);
      Sound(sys1, t, op') && Agrees(sys1, t, op')
  {
    hide OpInv, Paid, Permitted, Invalidate;
    InvalidateKeepsOpInv(op, reason, a);
    InvalidateAnswers(op, reason, a);
  }

  lemma InvalidateAnswers(op: Op, reason: Reason, a: Answer)
    requires OpInv(op) && Live(op)
    ensures var op' := Invalidate(op, reason, a);
      && op'.state == Invalidated(reason) && op'.job == op.job && op'.storeClose == op.storeClose
      && (a == Failed ==> op'.cleanupFailed)
      && (a == Refused ==> Owed(op') || op.storeClose == Some(false))
      && !op'.provisional
  {
  }

  /** A discard of one id is local to that id. */
  lemma DirectDiscardIsLocal(s: Store, s': Store, id: Id, a: Answer)
    requires OnlyDiscard(s, s', id, a)
    ensures Local(s, s', id)
  {
  }

  lemma DirectDiscardRests(s: Store, id: Id, fs: Fs)
    requires AtRest(s)
    ensures var (s', a) := DirectDiscard(s, id, fs); AtRest(s') && OnlyDiscard(s, s', id, a)
  {
    hide StoreInv, AtRest, DirectDiscard, Gate;
    AtRestIsSafe(s, id);
    AtRestIsStoreInv(s);
    DirectDiscardKeeps(s, id, fs);
  }

  /** Invalidation, at any instant of any operation, keeps the three ledgers in agreement. */
  lemma InvalidateOpKeeps(sys: Sys, t: nat, reason: Reason, d: Disk)
    requires SysInv(sys) && t < |sys.ops|
    ensures var sys' := InvalidateOp(sys, t, reason, d);
      && SysInv(sys')
      && (Terminal(sys.ops[t]) ==> sys' == sys)
      && (Live(sys.ops[t]) ==>
            && |sys'.ops| == |sys.ops|
            && (forall k | 0 <= k < |sys.ops| && k != t :: sys'.ops[k] == sys.ops[k])
            && exists a: Answer :: sys'.ops[t] == Invalidate(sys.ops[t], reason, a))
  {
    hide Sound, Agrees, StoreInv, AtRest, InvalidateOp, DirectDiscard, Land, Invalidate, IdOk, TokenOk, SysCore, OffBy, OnlyDiscard, Local;
    var op := sys.ops[t];
    if Terminal(op) {
      InvalidatedAlready(sys, t, reason, d);
    } else {
      LiveFacts(sys, t);
      CoreIsOffBy(sys, t);
      InvalidationLands(sys, t, reason, d);
      DirectDiscardRests(sys.store, op.id, d.outer);
      var (st, a) := DirectDiscard(sys.store, op.id, d.outer);
      AtRestIsStoreInv(st);
      DirectDiscardIsLocal(sys.store, st, op.id, a);
      OffByStore(sys, t, st);
      InvalidatedAgrees(sys, st, t, op, reason, a);
      InvalidateStaysItself(sys, t, op, reason, a);
      LandKeeps(sys.(store := st), t, Invalidate(op, reason, a));
    }
  }

  lemma InvalidatedAlready(sys: Sys, t: nat, reason: Reason, d: Disk)
    requires t < |sys.ops| && Terminal(sys.ops[t])
    ensures InvalidateOp(sys, t, reason, d) == sys
  {
  }

  lemma InvalidateStaysItself(sys: Sys, t: nat, op: Op, reason: Reason, a: Answer)
    requires Sound(sys, t, op)
    ensures var op' := Invalidate(op, reason, a);
      op'.id == op.id && op'.owner == op.owner
  {
    hide OpInv, Invalidate;
    InvalidateKeepsOpInv(op, reason, a);
  }

  // -- one operation moves, the store does not ---------------------------------------------------

  /** A step of the operation that no book can tell. */
  predicate Alike(op: Op, op': Op) {
    && (op'.job == Capturing <==> op.job == Capturing)
    && (Terminal(op') <==> Terminal(op))
    && (op'.state == Committed(Available) <==> op.state == Committed(Available))
    && (Live(op) ==> (HasStaged(op') <==> HasStaged(op)))
    && op'.waitingForArtifact == op.waitingForArtifact && op'.refusalPending == op.refusalPending
    && op'.cleanupFailed == op.cleanupFailed && op'.storeClose == op.storeClose
    && (op.cleanupUnconfirmed ==> op'.cleanupUnconfirmed)
  }

  lemma AlikeAgrees(sys: Sys, t: nat, op: Op, op': Op)
    requires OpInv(op') && Follows(op, op') && Alike(op, op') && Sound(sys, t, op)
    ensures Sound(sys, t, op')
    ensures !op.released && Agrees(sys, t, op) ==> Agrees(sys, t, op')
  {
    hide OpInv;
  }

  lemma AlikeKeeps(sys: Sys, t: nat, op': Op)
    requires SysInv(sys) && t < |sys.ops| && OpInv(op') && Follows(sys.ops[t], op') && Alike(sys.ops[t], op')
    ensures SysInv(Land(sys, t, op')) && Land(sys, t, op').ops == sys.ops[t := op'] && Land(sys, t, op').store == sys.store
  {
    hide OpInv, SysCore, AtRest, Land, Sound, Agrees, Alike;
    TokenIsOk(sys, t);
    AlikeAgrees(sys, t, sys.ops[t], op');
    LandsKeep(sys, t, op');
  }

  lemma TokenIsOk(sys: Sys, t: nat)
    requires SysCore(sys) && t < |sys.ops|
    ensures OpInv(sys.ops[t]) && Sound(sys, t, sys.ops[t])
    ensures !sys.ops[t].released ==> Agrees(sys, t, sys.ops[t])
  {
    assert TokenOk(sys, t);
  }

  lemma LandingUnreleased(sys: Sys, t: nat, op': Op)
    requires t < |sys.ops| && (op'.released ==> sys.ops[t].released)
    ensures Land(sys, t, op') == sys.(ops := sys.ops[t := op'])
  {
  }

  lemma RegisterAlike(op: Op)
    requires OpInv(op) && (op.state == Open ==> op.events == 0)
    ensures OpInv(Register(op, Clean).0) && Follows(op, Register(op, Clean).0) && Alike(op, Register(op, Clean).0)
    ensures Register(op, Clean).0.released == op.released
  {
  }

  lemma CountedAlike(op: Op)
    requires OpInv(op) && op.state == Open && op.events > 0
    ensures var op' := op.(events := op.events + 1); OpInv(op') && Follows(op, op') && Alike(op, op') && op'.released == op.released
  {
  }

  lemma RegisterDownloadKeeps(sys: Sys, t: nat, d: Disk)
    requires SysInv(sys) && t < |sys.ops|
    ensures SysInv(RegisterDownload(sys, t, d).0)
    ensures RegisterDownload(sys, t, d).1 <==> sys.ops[t].state == Open && sys.ops[t].events == 0
  {
    hide OpInv, SysInv, Land, Alike, InvalidateOp, Follows;
    var op := sys.ops[t];
    assert OpInv(op) by { InvIsCore(sys); TokenIsOk(sys, t); }
    if op.state == Open && op.events > 0 {
      CountedAlike(op);
      var op' := op.(events := op.events + 1);
      AlikeKeeps(sys, t, op');
      LandingUnreleased(sys, t, op');
      InvalidateOpKeeps(sys.(ops := sys.ops[t := op']), t, MultipleArtifacts, d);
    } else {
      RegisterAlike(op);
      AlikeKeeps(sys, t, Register(op, Clean).0);
      LandingUnreleased(sys, t, Register(op, Clean).0);
    }
  }

  lemma InvIsCore(sys: Sys)
    requires SysInv(sys)
    ensures SysCore(sys) && AtRest(sys.store)
  {
  }

  lemma SmallStepsAlike(op: Op, pdf: bool)
    requires OpInv(op)
    ensures Follows(op, NoteLanding(op, pdf)) && OpInv(NoteLanding(op, pdf)) && Alike(op, NoteLanding(op, pdf))
    ensures Follows(op, Seal(op)) && OpInv(Seal(op)) && Alike(op, Seal(op))
  {
  }

  lemma JobEndsAlike(op: Op)
    requires OpInv(op) && op.job == Ending && op.active > 0
    ensures OpInv(EndJob(op)) && Follows(op, EndJob(op)) && Alike(op, EndJob(op))
  {
  }

  lemma CleanupAlike(op: Op, confirmed: bool)
    requires OpInv(op)
    ensures var op' := FinishCleanup(op, confirmed); OpInv(op') && Follows(op, op') && Alike(op, op')
    ensures op.cleanup == Running && !confirmed ==>
      FinishCleanup(op, confirmed).cleanupUnconfirmed && FinishCleanup(op, confirmed).state.Invalidated?
  {
  }

  /** An operation whose driver copy was not confirmed gone is dropped from the runtime, never released. */
  lemma UntrackKeeps(sys: Sys, t: nat)
    requires SysInv(sys) && t < |sys.ops| && sys.ops[t].cleanupUnconfirmed
    ensures SysInv(sys.(poisoned := true, tracked := sys.tracked - {t}))
  {
    hide StoreInv, AtRest, OpInv, IdOk;
    var sys' := sys.(poisoned := true, tracked := sys.tracked - {t});
    forall k | 0 <= k < |sys'.ops| ensures TokenOk(sys', k) { assert TokenOk(sys, k); }
    forall id ensures IdOk(sys', id) { assert IdOk(sys, id); UntrackKeepsId(sys, t, id); }
  }

  lemma UntrackKeepsId(sys: Sys, t: nat, id: Id)
    requires IdOk(sys, id)
    ensures IdOk(sys.(poisoned := true, tracked := sys.tracked - {t}), id)
  {
  }

  lemma CleanupSettlesKeeps(sys: Sys, t: nat, confirmed: bool)
    requires SysInv(sys) && t < |sys.ops|
    ensures SysInv(CleanupSettlesAt(sys, t, confirmed))
  {
    hide OpInv, SysInv, Land, Alike, FinishCleanup, Follows;
    var op := sys.ops[t];
    assert OpInv(op) by { InvIsCore(sys); TokenIsOk(sys, t); }
    CleanupAlike(op, confirmed);
    AlikeKeeps(sys, t, FinishCleanup(op, confirmed));
    if op.cleanup == Running && !confirmed {
      UntrackKeeps(Land(sys, t, FinishCleanup(op, confirmed)), t);
    }
  }

  // -- capture ------------------------------------------------------------------------------------

  lemma CaptureIsLocal(s: Store, s': Store, id: Id, r: CaptureResult)
    requires OnlyCapture(s, s', id, r)
    ensures Local(s, s', id)
  {
  }

  /** The store moved under one capture, and the operation moved with it. */
  lemma CaptureLands(sys: Sys, t: nat, st: Store, r: CaptureResult, op': Op)
    requires SysInv(sys) && t < |sys.ops| && !sys.ops[t].released && Same(sys.ops[t], op') && !op'.released
    requires AtRest(st) && OnlyCapture(sys.store, st, sys.ops[t].id, r)
    requires Sound(sys.(store := st), t, op') && Agrees(sys.(store := st), t, op')
    ensures var sys' := sys.(store := st, ops := sys.ops[t := op']);
      SysInv(sys') && sys' == Land(sys.(store := st), t, op')
  {
    hide Sound, Agrees, StoreInv, AtRest, IdOk, TokenOk, SysCore, OffBy, OnlyCapture, Local, Land;
    CoreIsOffBy(sys, t);
    CaptureIsLocal(sys.store, st, sys.ops[t].id, r);
    AtRestIsStoreInv(st);
    OffByStore(sys, t, st);
    LandKeeps(sys.(store := st), t, op');
    LandingUnreleased(sys.(store := st), t, op');
  }

  lemma BegunAgrees(sys: Sys, t: nat, st: Store, r: CaptureResult)
    requires t < |sys.ops| && sys.ops[t].job == Asking && Live(sys.ops[t]) && !sys.ops[t].released && r != Published
    requires var op := sys.ops[t]; OpInv(op) && Sound(sys, t, op) && Agrees(sys, t, op)
    requires OnlyCapture(sys.store, st, sys.ops[t].id, r) && (r == Pending ==> st.inflight[sys.ops[t].id].consumer == sys.ops[t].owner.consumer)
    ensures var op' := if r == Pending then BeginCapture(sys.ops[t]) else CaptureSettled(BeginCapture(sys.ops[t]), false);
      && Sound(sys.(store := st), t, op') && Agrees(sys.(store := st), t, op')
      && Same(sys.ops[t], op') && !op'.released
  {
    hide Exact;
    JobKeepsOpInv(sys.ops[t], Clean, false);
    JobKeepsOpInv(BeginCapture(sys.ops[t]), Clean, false);
  }

  lemma StartCaptureKeeps(sys: Sys, t: nat, o: StageOutcome)
    requires SysInv(sys) && t < |sys.ops| && sys.ops[t].job == Asking && Live(sys.ops[t]) && Bounded(o)
    ensures SysInv(StartCapture(sys, t, o))
  {
    hide OpInv, Sound, Agrees, SysCore, AtRest, OnlyCapture, CaptureBegin, Bounded;
    var op := sys.ops[t];
    LiveFacts(sys, t);
    TokenIsOk(sys, t);
    NotCapturing(sys, t);
    CaptureBeginKeeps(sys.store, op.id, op.owner.consumer, o);
    var (st, r) := CaptureBegin(sys.store, op.id, op.owner.consumer, o);
    BegunAgrees(sys, t, st, r);
    CaptureLands(sys, t, st, r, if r == Pending then BeginCapture(op) else CaptureSettled(BeginCapture(op), false));
  }

  lemma NotCapturing(sys: Sys, t: nat)
    requires t < |sys.ops| && Agrees(sys, t, sys.ops[t])
    ensures sys.ops[t].job == Capturing <==> sys.ops[t].id in sys.store.inflight
    ensures sys.ops[t].job == Capturing ==> sys.store.inflight[sys.ops[t].id].consumer == sys.ops[t].owner.consumer
  {
  }

  /** What one segment of a running capture may do, whichever segment it was. */
  ghost predicate SegmentOf(s: Store, id: Id, st: Store, r: CaptureResult) {
    && id in s.inflight
    && AtRest(st) && OnlyCapture(s, st, id, r)
    && (r == Pending ==> st.inflight[id].consumer == s.inflight[id].consumer)
    && (r == Published ==> id !in s.tombstones && st.records[id].consumer == s.inflight[id].consumer)
  }

  lemma SegmentAgrees(sys: Sys, t: nat, st: Store, r: CaptureResult)
    requires t < |sys.ops| && sys.ops[t].job == Capturing && !sys.ops[t].released
    requires Sound(sys, t, sys.ops[t]) && Agrees(sys, t, sys.ops[t]) && StoreInv(sys.store)
    requires SegmentOf(sys.store, sys.ops[t].id, st, r)
    ensures var op := sys.ops[t]; var op' := if r == Pending then op else CaptureSettled(op, r == Published);
      && Sound(sys.(store := st), t, op') && Agrees(sys.(store := st), t, op')
      && Same(op, op') && !op'.released
  {
    hide Exact, AtRest, StoreInv;
    TombstonesInFlight(sys.store, sys.ops[t].id);
    JobKeepsOpInv(sys.ops[t], Clean, r == Published);
  }

  lemma SegmentKeeps(sys: Sys, t: nat, st: Store, r: CaptureResult)
    requires SysInv(sys) && t < |sys.ops| && sys.ops[t].job == Capturing && !sys.ops[t].released
    requires SegmentOf(sys.store, sys.ops[t].id, st, r)
    ensures var op := sys.ops[t];
      SysInv(sys.(store := st, ops := sys.ops[t := if r == Pending then op else CaptureSettled(op, r == Published)]))
  {
    hide OpInv, Sound, Agrees, SysCore, AtRest, OnlyCapture, StoreInv;
    TokenIsOk(sys, t);
    CoreHasStore(sys);
    SegmentAgrees(sys, t, st, r);
    var op := sys.ops[t];
    CaptureLands(sys, t, st, r, if r == Pending then op else CaptureSettled(op, r == Published));
  }

  // -- close --------------------------------------------------------------------------------------

  /** Once the runtime is closed no operation is left to decide. */
  lemma ClosedIsTerminal(sys: Sys, t: nat)
    requires SysCore(sys) && sys.closed && t < |sys.ops|
    ensures Terminal(sys.ops[t])
  {
    assert TokenOk(sys, t);
  }

  /** The store's close, as the runtime sees it: nothing moved, or every record is gone and it said so. */
  ghost predicate ClosedOver(s: Store, st: Store) {
    && AtRest(st) && st.inflight == s.inflight
    && (s.result.Some? ==> st.result == s.result)
    && (SweptClean(st) || (st.records == s.records && st.tombstones == s.tombstones))
  }

  lemma ClosedOverKeepsToken(sys: Sys, st: Store, t: nat)
    requires SysInv(sys) && sys.closed && ClosedOver(sys.store, st) && t < |sys.ops|
    ensures TokenOk(sys.(store := st), t)
  {
    hide Paid, Permitted, OpInv, IdOk;
    assert TokenOk(sys, t);
  }

  lemma ClosedOverKeeps(sys: Sys, st: Store)
    requires SysInv(sys) && sys.closed && ClosedOver(sys.store, st)
    ensures SysInv(sys.(store := st))
  {
    hide TokenOk, Paid, Permitted;
    var sys' := sys.(store := st);
    forall t | 0 <= t < |sys'.ops| ensures TokenOk(sys', t) {
      ClosedOverKeepsToken(sys, st, t);
    }
    forall id ensures IdOk(sys', id) {
      assert IdOk(sys, id);
    }
  }

  lemma SweptAgrees(sys: Sys, t: nat, op: Op)
    requires SysInv(sys) && SweptClean(sys.store) && Terminal(op) && Sound(sys, t, op)
    ensures var op' := NoteDiscarded(op, true, Refused);
      && NoteDiscarded(op, true, Clean) == op' && Same(op, op')
      && Sound(sys, t, op') && (!op.released && Agrees(sys, t, op) ==> Agrees(sys, t, op'))
  {
    hide OpInv, Paid, Permitted, Tokens, IdOk;
    NoteDiscardedKeepsOpInv(op, true, Refused);
  }

  lemma NotifyClosedKeeps(sys: Sys, id: Id)
    requires SysInv(sys) && sys.closed && SweptClean(sys.store)
    ensures var sys' := Notify(sys, id, true, Fs(false, false));
      && SysInv(sys') && sys'.store == sys.store && sys'.closed && sys'.lineage == sys.lineage
      && |sys'.ops| == |sys.ops| && (forall k | 0 <= k < |sys.ops| :: sys'.ops[k].owner == sys.ops[k].owner)
  {
    hide Sound, Agrees, SysCore, AtRest, Land, NoteDiscarded;
    if id in sys.reserved && sys.reserved[id] in sys.tracked && sys.reserved[id] < |sys.ops| {
      var t := sys.reserved[id];
      ClosedIsTerminal(sys, t);
      TokenIsOk(sys, t);
      SweptAgrees(sys, t, sys.ops[t]);
      LandsKeep(sys, t, NoteDiscarded(sys.ops[t], true, Clean));
      LandChangesBooksOnly(sys, t, NoteDiscarded(sys.ops[t], true, Clean));
    }
  }

  lemma LandChangesBooksOnly(sys: Sys, t: nat, op: Op)
    requires t < |sys.ops|
    ensures var sys' := Land(sys, t, op);
      && sys'.closed == sys.closed && sys'.lineage == sys.lineage && sys'.poisoned == sys.poisoned
      && sys'.asked == sys.asked && sys'.snapshot == sys.snapshot && sys'.settled == sys.settled
      && sys'.tracked <= sys.tracked && sys'.store == sys.store
      && (forall k | k in sys'.owners :: k in sys.owners && sys'.owners[k] == sys.owners[k])
  {
  }

  lemma {:induction false} NotifySweptKeeps(sys: Sys, ids: seq<Id>)
    requires SysInv(sys) && sys.closed && (ids == [] || SweptClean(sys.store))
    ensures var sys' := NotifySwept(sys, ids);
      && SysInv(sys') && sys'.store == sys.store && sys'.closed && sys'.lineage == sys.lineage
      && |sys'.ops| == |sys.ops| && (forall k | 0 <= k < |sys.ops| :: sys'.ops[k].owner == sys.ops[k].owner)
    decreases |ids|
  {
    hide SysInv, Notify;
    if ids != [] {
      NotifyClosedKeeps(sys, ids[0]);
      NotifySweptKeeps(Notify(sys, ids[0], true, Fs(false, false)), ids[1..]);
    }
  }

  lemma CloseRequestIsClosedOver(s: Store, o: CloseFs)
    requires AtRest(s) && Lists(o.order, s.records.Keys)
    ensures var (st, told) := CloseRequest(s, o);
      ClosedOver(s, st) && (told == [] || SweptClean(st))
  {
    hide AtRest, StoreInv, CloseRequest;
    CloseRequestKeeps(s, o);
    if s.result.Some? { AtRestIsStoreInv(s); DisposedWasRequested(s); }
  }

  lemma DisposedWasRequested(s: Store)
    requires StoreInv(s) && s.result.Some?
    ensures s.closeRequested && s.disposed
  {
  }

  lemma NoCopyNoTombstone(s: Store)
    requires StoreInv(s) && s.inflight == map[]
    ensures s.tombstones == {}
  {
  }

  lemma AfterCaptureIsClosedOver(s: Store, o: CloseFs)
    requires AtRest(s) && Lists(o.order, s.records.Keys)
    ensures var (st, told) := AfterCapture(s, o);
      ClosedOver(s, st) && (told == [] || SweptClean(st)) && (told != [] ==> s.closeRequested)
      && (!s.closeRequested ==> st == s)
  {
    hide AtRest, StoreInv, CloseSucceeds, Lists;
    if MayFinishClose(s) {
      hide FinishClose;
      CloseIsAllOrNothing(s, o);
      AtRestIsStoreInv(s);
      NothingInFlight(s);
      AtRestIsStoreInv(FinishClose(s, o).0);
      NoCopyNoTombstone(s);
      NoCopyNoTombstone(FinishClose(s, o).0);
    } else {
      AtRestIsStoreInv(s);
      assert FinishClose(s, o) == (s, []);
    }
  }

  lemma StoreRequestIsClosed(sys: Sys)
    requires SysInv(sys) && sys.store.closeRequested
    ensures sys.closed
  {
  }

  lemma CapturingIsUnreleased(sys: Sys, t: nat)
    requires SysInv(sys) && t < |sys.ops| && sys.ops[t].job != NoJob
    ensures !sys.ops[t].released && sys.ops[t].active == 1
  {
    assert TokenOk(sys, t);
  }

  lemma CaptureSegmentKeeps(sys: Sys, t: nat, st: Store, r: CaptureResult, o: CloseFs)
    requires SysInv(sys) && t < |sys.ops| && sys.ops[t].job == Capturing
    requires SegmentOf(sys.store, sys.ops[t].id, st, r)
    requires Lists(o.order, st.records.Keys)
    ensures SysInv(CaptureSegment(sys, t, st, r, o))
  {
    hide SysInv, AtRest, AfterCapture, NotifySwept, CaptureSettled, Lists, ClosedOver;
    CapturingIsUnreleased(sys, t);
    SegmentKeeps(sys, t, st, r);
    if r == Pending {
      assert sys.ops[t := sys.ops[t]] == sys.ops;
    } else {
      SegmentEndKeeps(sys.(store := st, ops := sys.ops[t := CaptureSettled(sys.ops[t], r == Published)]), o);
    }
  }

  lemma SegmentEndKeeps(sys: Sys, o: CloseFs)
    requires SysInv(sys) && Lists(o.order, sys.store.records.Keys)
    ensures var (st, told) := AfterCapture(sys.store, o); SysInv(NotifySwept(sys.(store := st), told))
  {
    hide SysInv, AtRest, AfterCapture, NotifySwept, Lists, ClosedOver;
    InvIsCore(sys);
    AfterCaptureIsClosedOver(sys.store, o);
    var (st, told) := AfterCapture(sys.store, o);
    if sys.store.closeRequested {
      StoreRequestIsClosed(sys);
      ClosedOverKeeps(sys, st);
      NotifySweptKeeps(sys.(store := st), told);
    } else {
      NotifyingNobody(sys);
    }
  }

  lemma NotifyingNobody(sys: Sys)
    ensures NotifySwept(sys, []) == sys
  {
  }

  // -- delivery and commit ------------------------------------------------------------------------

  lemma DeliveredLate(sys: Sys, t: nat, op: Op, a: Answer)
    requires Sound(sys, t, op) && Agrees(sys, t, op) && StoreInv(sys.store)
    requires op.job.Captured? && Terminal(op) && !op.released
    requires op.job.available ==> (a == Clean ==> op.id !in sys.store.records)
    ensures var op' := Deliver(op, a);
      && Sound(sys, t, op') && Agrees(sys, t, op') && Same(op, op') && !op'.released
      && op' == if op.job.available then EndStage(Answered(op, a)) else EndStage(op)
  {
    hide Exact, Paid, Permitted;
    DeliverKeepsOpInv(op, a);
  }

  lemma DeliveredInTime(sys: Sys, t: nat, op: Op)
    requires Sound(sys, t, op) && Agrees(sys, t, op) && Live(op) && op.job == Captured(true) && !op.released
    ensures var op' := EndStage(op.(provisional := true));
      && Sound(sys, t, op') && Agrees(sys, t, op') && Same(op, op') && !op'.released
  {
    hide Exact;
    DeliverKeepsOpInv(op, Clean);
  }

  /** The end of the staging body in an operation that is already retired. */
  lemma EndStageAlike(op: Op, op': Op)
    requires OpInv(op) && Terminal(op) && op.job != Capturing && op.job != NoJob && op' == EndStage(op)
    ensures OpInv(op') && Follows(op, op') && Alike(op, op') && op'.released == op.released
  {
  }

  lemma EndStageKeeps(sys: Sys, t: nat)
    requires SysInv(sys) && t < |sys.ops| && Terminal(sys.ops[t]) && sys.ops[t].job != Capturing && sys.ops[t].job != NoJob
    ensures SysInv(EndStageAt(sys, t))
  {
    hide OpInv, SysCore, AtRest, Land, Alike, Follows, EndStage;
    TokenIsOk(sys, t);
    EndStageAlike(sys.ops[t], EndStage(sys.ops[t]));
    AlikeKeeps(sys, t, EndStage(sys.ops[t]));
    LandingUnreleased(sys, t, EndStage(sys.ops[t]));
  }

  lemma InvalidateKeepsJob(op: Op, reason: Reason, a: Answer)
    requires OpInv(op)
    ensures Invalidate(op, reason, a).job == op.job && Terminal(Invalidate(op, reason, a))
  {
    hide Invalidate;
    InvalidateKeepsOpInv(op, reason, a);
  }

  /** Retiring the operation and ending its staging body, as the failed accessors and a failed copy do. */
  lemma RetireThenEndStage(sys: Sys, t: nat, reason: Reason, d: Disk)
    requires SysInv(sys) && t < |sys.ops| && sys.ops[t].job != Capturing && sys.ops[t].job != NoJob
    ensures SysInv(EndStageAt(InvalidateOp(sys, t, reason, d), t))
  {
    hide OpInv, SysCore, AtRest, InvalidateOp, Invalidate, EndStageAt;
    TokenIsOk(sys, t);
    InvalidateOpKeeps(sys, t, reason, d);
    if Live(sys.ops[t]) {
      var a: Answer :| InvalidateOp(sys, t, reason, d).ops[t] == Invalidate(sys.ops[t], reason, a);
      InvalidateKeepsJob(sys.ops[t], reason, a);
    }
    EndStageKeeps(InvalidateOp(sys, t, reason, d), t);
  }

  lemma DeliverCaptureKeeps(sys: Sys, t: nat, d: Disk)
    requires SysInv(sys) && t < |sys.ops| && sys.ops[t].job.Captured?
    ensures SysInv(DeliverCapture(sys, t, d))
  {
    hide SysInv, InvalidateOp, EndStageAt, EndStage, Discard;
    if Terminal(sys.ops[t]) {
      if sys.ops[t].job.available { DeliverLateKeeps(sys, t, d); } else { EndStageKeeps(sys, t); }
    } else if sys.ops[t].job.available {
      DeliverInTimeKeeps(sys, t);
    } else {
      RetireThenEndStage(sys, t, StoreFailure, d);
    }
  }

  lemma DeliverInTimeKeeps(sys: Sys, t: nat)
    requires SysInv(sys) && t < |sys.ops| && Live(sys.ops[t]) && sys.ops[t].job == Captured(true)
    ensures SysInv(sys.(ops := sys.ops[t := EndStage(sys.ops[t].(provisional := true))]))
  {
    hide OpInv, SysCore, AtRest, Land, Sound, Agrees, EndStage;
    CapturingIsUnreleased(sys, t);
    TokenIsOk(sys, t);
    DeliveredInTime(sys, t, sys.ops[t]);
    LandsKeep(sys, t, EndStage(sys.ops[t].(provisional := true)));
    LandingUnreleased(sys, t, EndStage(sys.ops[t].(provisional := true)));
  }

  lemma OnlyIdAt(sys: Sys, sys': Sys, id: Id, t: nat)
    requires OnlyId(sys, sys', id) && t < |sys.ops|
    ensures |sys'.ops| == |sys.ops| && sys'.ops[t].id == sys.ops[t].id && sys'.ops[t].owner == sys.ops[t].owner
    ensures sys'.ops[t].job == sys.ops[t].job && (Terminal(sys.ops[t]) ==> sys'.ops[t].state == sys.ops[t].state)
  {
  }

  lemma DeliverLateKeeps(sys: Sys, t: nat, d: Disk)
    requires SysInv(sys) && t < |sys.ops| && Terminal(sys.ops[t]) && sys.ops[t].job == Captured(true)
    ensures var (sys1, a) := Discard(sys, sys.ops[t].id, d);
      t < |sys1.ops| && SysInv(sys1.(ops := sys1.ops[t := EndStage(Answered(sys1.ops[t], a))]))
  {
    hide OpInv, SysCore, AtRest, Land, Sound, Agrees, Discard, OnlyId, Answered, EndStage, Deliver;
    DiscardKeeps(sys, sys.ops[t].id, d);
    var (sys1, a) := Discard(sys, sys.ops[t].id, d);
    OnlyIdAt(sys, sys1, sys.ops[t].id, t);
    CapturingIsUnreleased(sys1, t);
    TokenIsOk(sys1, t);
    CoreHasStore(sys1);
    DeliveredLate(sys1, t, sys1.ops[t], a);
    LandsKeep(sys1, t, Deliver(sys1.ops[t], a));
    LandingUnreleased(sys1, t, Deliver(sys1.ops[t], a));
  }

  lemma OwnedIsOffBy(sys: Sys, t: nat, o: map<Id, Entry>)
    requires OffBy(sys, t)
    requires forall id | id != sys.ops[t].id :: (id in o <==> id in sys.owners) && (id in o ==> o[id] == sys.owners[id])
    ensures OffBy(sys.(owners := o), t)
  {
    hide StoreInv, OpInv;
    var sys' := sys.(owners := o);
    forall k | 0 <= k < |sys'.ops| && k != t ensures TokenOk(sys', k) {
      assert TokenOk(sys, k);
      if !sys.ops[k].released { OthersHoldOtherIds(sys, t, k); }
    }
    forall id | id != sys'.ops[t].id ensures IdOk(sys', id) {
      assert IdOk(sys, id);
    }
  }

  lemma CommittedAgrees(sys: Sys, t: nat, op: Op, o: map<Id, Entry>)
    requires Sound(sys, t, op) && Agrees(sys, t, op) && t in sys.tracked
    requires op.state == Sealing && op.active == 0 && !op.released
    requires o == if CommitOutcome(op) == Available then sys.owners[op.id := Entry(t, op.owner)] else sys.owners
    ensures var sys1 := sys.(owners := o);
      Sound(sys1, t, Commit(op)) && Agrees(sys1, t, Commit(op)) && Same(op, Commit(op))
  {
    SealKeepsOpInv(op);
  }

  /** The owner ledger gains an entry exactly for an available artifact, under the committing token. */
  lemma CommitAtKeeps(sys: Sys, t: nat)
    requires SysInv(sys) && t < |sys.ops| && sys.ops[t].state == Sealing && sys.ops[t].active == 0
    ensures SysInv(CommitAt(sys, t))
    ensures CommitAt(sys, t).ops == sys.ops[t := Commit(sys.ops[t])]
  {
    hide OpInv, SysCore, AtRest, Land, Sound, Agrees, Commit, OffBy;
    var op := sys.ops[t];
    LiveFacts(sys, t);
    CoreIsOffBy(sys, t);
    OpId(sys, t);
    var o := if CommitOutcome(op) == Available then sys.owners[op.id := Entry(t, op.owner)] else sys.owners;
    OwnedIsOffBy(sys, t, o);
    CommittedAgrees(sys, t, op, o);
    LandKeeps(sys.(owners := o), t, Commit(op));
    LandOps(sys.(owners := o), t, Commit(op));
  }

  lemma OpId(sys: Sys, t: nat)
    requires OffBy(sys, t)
    ensures t < |sys.ops|
  {
  }

  lemma LandOps(sys: Sys, t: nat, op: Op)
    requires t < |sys.ops|
    ensures Land(sys, t, op).ops == sys.ops[t := op]
  {
  }

  // -- retiring a whole snapshot ------------------------------------------------------------------

  /** Nothing of this is read or written by a discard or an invalidation. */
  function Flagged(sys: Sys, l: map<(Consumer, Controller), Lineage>, closed: bool, snapshot: set<nat>): Sys {
    sys.(lineage := l, closed := closed, snapshot := snapshot)
  }

  lemma LandFlagged(sys: Sys, t: nat, op: Op, l: map<(Consumer, Controller), Lineage>, c: bool, n: set<nat>)
    requires t < |sys.ops| && op.released && !sys.ops[t].released
    ensures var b := Land(sys, t, op);
      Land(Flagged(sys, l, c, n), t, op) == Flagged(sys.(reserved := b.reserved, owners := b.owners, tracked := b.tracked, ops := b.ops), l, c, n)
  {
    var b := Land(sys, t, op);
    var a := Land(Flagged(sys, l, c, n), t, op);
    assert a.reserved == b.reserved;
    assert a.owners == b.owners;
  }

  lemma LandCommutes(sys: Sys, t: nat, op: Op, l: map<(Consumer, Controller), Lineage>, c: bool, n: set<nat>)
    requires t < |sys.ops|
    ensures Land(Flagged(sys, l, c, n), t, op) == Flagged(Land(sys, t, op), l, c, n)
  {
    if op.released && !sys.ops[t].released {
      var b := Land(sys, t, op);
      assert b == sys.(reserved := b.reserved, owners := b.owners, tracked := b.tracked, ops := b.ops);
      LandFlagged(sys, t, op, l, c, n);
    }
  }

  lemma InvalidateCommutes(sys: Sys, t: nat, reason: Reason, d: Disk, l: map<(Consumer, Controller), Lineage>, c: bool, n: set<nat>)
    requires SysCore(sys) && t < |sys.ops|
    ensures InvalidateOp(Flagged(sys, l, c, n), t, reason, d) == Flagged(InvalidateOp(sys, t, reason, d), l, c, n)
  {
    hide SysCore, DirectDiscard, Land, Invalidate, InvalidateOp;
    if Terminal(sys.ops[t]) {
      InvalidatedAlready(sys, t, reason, d);
      InvalidatedAlready(Flagged(sys, l, c, n), t, reason, d);
    } else {
      LiveFacts(sys, t);
      InvalidationLands(sys, t, reason, d);
      InvalidationLands(Flagged(sys, l, c, n), t, reason, d);
      var (st, a) := DirectDiscard(sys.store, sys.ops[t].id, d.outer);
      LandCommutes(sys.(store := st), t, Invalidate(sys.ops[t], reason, a), l, c, n);
    }
  }

  /** What retiring operations may change about any of them. */
  ghost predicate OnlyRetires(sys: Sys, sys': Sys) {
    && |sys'.ops| == |sys.ops|
    && (forall k | 0 <= k < |sys.ops| :: sys'.ops[k].id == sys.ops[k].id && sys'.ops[k].owner == sys.ops[k].owner)
    && (forall k | 0 <= k < |sys.ops| && Terminal(sys.ops[k]) :: sys'.ops[k] == sys.ops[k])
    && sys'.lineage == sys.lineage && sys'.closed == sys.closed && sys'.snapshot == sys.snapshot
    && sys'.settled == sys.settled && sys'.poisoned == sys.poisoned && sys'.asked == sys.asked
    && sys'.tracked <= sys.tracked && sys'.owners == sys.owners
  }

  lemma LandOnlyRetires(sys: Sys, t: nat, op: Op)
    requires t < |sys.ops| && sys.ops[t].id !in sys.owners && op.id == sys.ops[t].id && op.owner == sys.ops[t].owner && Live(sys.ops[t])
    ensures OnlyRetires(sys, Land(sys, t, op))
  {
  }

  lemma InvalidateOnlyRetires(sys: Sys, t: nat, reason: Reason, d: Disk)
    requires SysInv(sys) && t < |sys.ops|
    ensures OnlyRetires(sys, InvalidateOp(sys, t, reason, d)) && Terminal(InvalidateOp(sys, t, reason, d).ops[t])
  {
    hide SysCore, AtRest, DirectDiscard, Land, Invalidate, InvalidateOp, OnlyRetires, Sound, Agrees, OpInv;
    TokenIsOk(sys, t);
    InvalidateOpKeeps(sys, t, reason, d);
    if Terminal(sys.ops[t]) {
      RetiresReflexive(sys);
    } else {
      LiveFacts(sys, t);
      InvalidationLands(sys, t, reason, d);
      var (st, a) := DirectDiscard(sys.store, sys.ops[t].id, d.outer);
      InvalidateStaysItself(sys, t, sys.ops[t], reason, a);
      InvalidateKeepsJob(sys.ops[t], reason, a);
      LiveOwnsNothing(sys, t);
      LandOnlyRetires(sys.(store := st), t, Invalidate(sys.ops[t], reason, a));
      RetiresIgnoresStore(sys, st, InvalidateOp(sys, t, reason, d));
      LandOps(sys.(store := st), t, Invalidate(sys.ops[t], reason, a));
    }
  }

  lemma LiveOwnsNothing(sys: Sys, t: nat)
    requires t < |sys.ops| && Live(sys.ops[t]) && Agrees(sys, t, sys.ops[t])
    ensures sys.ops[t].id !in sys.owners
  {
  }

  lemma RetiresReflexive(sys: Sys)
    ensures OnlyRetires(sys, sys)
  {
  }

  lemma RetiresIgnoresStore(sys: Sys, st: Store, sys': Sys)
    requires OnlyRetires(sys.(store := st), sys')
    ensures OnlyRetires(sys, sys')
  {
  }

  lemma RetiresTransitive(a: Sys, b: Sys, c: Sys)
    requires OnlyRetires(a, b) && OnlyRetires(b, c)
    ensures OnlyRetires(a, c)
  {
  }

  lemma RetiresAt(sys: Sys, sys': Sys, k: nat)
    requires OnlyRetires(sys, sys') && k < |sys.ops|
    ensures |sys'.ops| == |sys.ops| && (Terminal(sys.ops[k]) ==> sys'.ops[k] == sys.ops[k])
  {
  }

  /** One more of a snapshot retired. */
  function RetireNext(sys: Sys, doomed: set<nat>, k: nat, disks: nat -> Disk): Sys {
    if k in doomed && k < |sys.ops| then InvalidateOp(sys, k, RuntimeInvalidated, disks(k)) else sys
  }

  lemma RetireNextKeeps(sys: Sys, doomed: set<nat>, k: nat, disks: nat -> Disk)
    requires SysInv(sys)
    ensures var sys' := RetireNext(sys, doomed, k, disks);
      && SysInv(sys') && OnlyRetires(sys, sys') && |sys'.ops| == |sys.ops|
      && (k in doomed && k < |sys.ops| ==> Terminal(sys'.ops[k]))
      && (forall j | 0 <= j < |sys.ops| && j !in doomed :: sys'.ops[j] == sys.ops[j])
  {
    hide SysInv, InvalidateOp, OnlyRetires;
    if k in doomed && k < |sys.ops| {
      InvalidateOpKeeps(sys, k, RuntimeInvalidated, disks(k));
      InvalidateOnlyRetires(sys, k, RuntimeInvalidated, disks(k));
      RetiresAt(sys, RetireNext(sys, doomed, k, disks), k);
    } else {
      RetiresReflexive(sys);
    }
  }

  lemma RetireNextCommutes(sys: Sys, doomed: set<nat>, k: nat, disks: nat -> Disk, l: map<(Consumer, Controller), Lineage>, c: bool, s: set<nat>)
    requires SysInv(sys)
    ensures RetireNext(Flagged(sys, l, c, s), doomed, k, disks) == Flagged(RetireNext(sys, doomed, k, disks), l, c, s)
  {
    hide SysCore, AtRest, InvalidateOp;
    if k in doomed && k < |sys.ops| {
      InvalidateCommutes(sys, k, RuntimeInvalidated, disks(k), l, c, s);
    }
  }

  lemma RetireBelowNext(sys: Sys, doomed: set<nat>, n: nat, disks: nat -> Disk)
    ensures RetireBelow(sys, doomed, n, disks) == if n == 0 then sys else RetireNext(RetireBelow(sys, doomed, n - 1, disks), doomed, n - 1, disks)
  {
    hide InvalidateOp;
  }

  /** Every operation of the snapshot ends terminal, whatever the disk does; nothing else moves. */
  lemma {:induction false} RetireBelowKeeps(sys: Sys, doomed: set<nat>, n: nat, disks: nat -> Disk)
    requires SysInv(sys)
    ensures var sys' := RetireBelow(sys, doomed, n, disks);
      && SysInv(sys') && OnlyRetires(sys, sys') && |sys'.ops| == |sys.ops|
      && (forall k | 0 <= k < n && k in doomed && k < |sys.ops| :: Terminal(sys'.ops[k]))
      && (forall k | 0 <= k < |sys.ops| && k !in doomed :: sys'.ops[k] == sys.ops[k])
    decreases n
  {
    hide *;
    RetireBelowNext(sys, doomed, n, disks);
    if n == 0 {
      RetiresReflexive(sys);
    } else {
      RetireBelowKeeps(sys, doomed, n - 1, disks);
      var sys1 := RetireBelow(sys, doomed, n - 1, disks);
      RetireNextKeeps(sys1, doomed, n - 1, disks);
      var sys2 := RetireNext(sys1, doomed, n - 1, disks);
      RetiresTransitive(sys, sys1, sys2);
      forall k | 0 <= k < n && k in doomed && k < |sys.ops| ensures Terminal(sys2.ops[k]) {
        RetiresAt(sys1, sys2, k);
      }
    }
  }

  /** A fence or a closed flag raised first changes nothing about how the snapshot is retired. */
  lemma {:induction false} RetireBelowCommutes(sys: Sys, doomed: set<nat>, n: nat, disks: nat -> Disk,
                                               l: map<(Consumer, Controller), Lineage>, c: bool, s: set<nat>)
    requires SysInv(sys)
    ensures RetireBelow(Flagged(sys, l, c, s), doomed, n, disks) == Flagged(RetireBelow(sys, doomed, n, disks), l, c, s)
    decreases n
  {
    hide *;
    RetireBelowNext(sys, doomed, n, disks);
    RetireBelowNext(Flagged(sys, l, c, s), doomed, n, disks);
    if n > 0 {
      RetireBelowCommutes(sys, doomed, n - 1, disks, l, c, s);
      RetireBelowKeeps(sys, doomed, n - 1, disks);
      RetireNextCommutes(RetireBelow(sys, doomed, n - 1, disks), doomed, n - 1, disks, l, c, s);
    }
  }
}
