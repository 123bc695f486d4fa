/** Runs of the whole artifact runtime: every event, in every order. */
module RuntimeRuns {
  import opened Common
  import opened ReservationLedger
  import opened PermitModel
  import opened OperationModel
  import opened StoreModel
  import opened StoreHistory
  import opened RuntimeModel
  import opened RuntimeInvariants
  import opened RuntimeProofs
  import opened RuntimeSteps

  // -- creation -----------------------------------------------------------------------------------

  lemma CreateKeepsToken(sys: Sys, owner: Owner, id: Id, t: nat)
    requires SysInv(sys) && t < |Create(sys, owner, id).0.ops|
    ensures TokenOk(Create(sys, owner, id).0, t)
  {
    hide StoreInv, AtRest, OpInv;
    NewOpInv(id, owner);
    assert IdOk(sys, id);
    if t < |sys.ops| { assert TokenOk(sys, t); }
  }

  lemma CreateKeepsId(sys: Sys, owner: Owner, id: Id, k: Id)
    requires SysInv(sys)
    ensures IdOk(Create(sys, owner, id).0, k)
  {
    hide StoreInv, AtRest, TokenOk;
    assert IdOk(sys, k);
  }

  /** An id is handed out only while nobody holds it, and only to an owner no fence refuses. */
  lemma CreateKeeps(sys: Sys, owner: Owner, id: Id)
    requires SysInv(sys)
    ensures SysInv(Create(sys, owner, id).0)
    ensures var (sys', created) := Create(sys, owner, id);
      && (created <==> !sys.closed && !sys.poisoned && !FencedOwner(sys, owner) && id !in sys.reserved)
      && (!created ==> sys' == sys)
      && (created ==> |sys'.ops| == |sys.ops| + 1 && sys'.reserved[id] == |sys.ops| && sys'.ops[|sys.ops|] == NewOp(id, owner) && |sys.ops| in sys'.tracked)
  {
    hide StoreInv, AtRest, TokenOk, IdOk;
    var sys' := Create(sys, owner, id).0;
    forall t | 0 <= t < |sys'.ops| ensures TokenOk(sys', t) { CreateKeepsToken(sys, owner, id, t); }
    forall k ensures IdOk(sys', k) { CreateKeepsId(sys, owner, id, k); }
  }

  // -- the fence ----------------------------------------------------------------------------------

  /** Raising a fence, or the closed flag, over operations that are all terminal already. */
  lemma RaiseKeeps(sys: Sys, l: map<(Consumer, Controller), Lineage>, c: bool, s: set<nat>)
    requires SysInv(sys) && (sys.closed ==> c)
    requires forall k | k in sys.lineage :: k in l
    requires forall t | 0 <= t < |sys.ops| && (c || FencedOwner(sys.(lineage := l), sys.ops[t].owner)) :: Terminal(sys.ops[t])
    ensures SysInv(Flagged(sys, l, c, s))
  {
    hide StoreInv, AtRest, OpInv;
    var sys' := Flagged(sys, l, c, s);
    forall t | 0 <= t < |sys'.ops| ensures TokenOk(sys', t) { assert TokenOk(sys, t); }
    forall id ensures IdOk(sys', id) { assert IdOk(sys, id); }
  }

  lemma DoomedAlike(sys: Sys, l: map<(Consumer, Controller), Lineage>, c: Consumer, d: Controller)
    ensures OpsOfLineage(sys.(lineage := l), c, d) == OpsOfLineage(sys, c, d)
    ensures sys.(lineage := l) == Flagged(sys, l, sys.closed, sys.snapshot)
  {
  }

  /** After `invalidateController` no operation of the lineage is undecided. */
  lemma FenceKeeps(sys: Sys, c: Consumer, d: Controller, disks: nat -> Disk)
    requires SysInv(sys)
    ensures var sys' := Fence(sys, c, d, disks);
      && SysInv(sys')
      && sys'.lineage == sys.lineage[(c, d) := Fenced] && sys'.closed == sys.closed
      && |sys'.ops| == |sys.ops|
      && sys'.owners == sys.owners
      && (forall k | 0 <= k < |sys.ops| && OfLineage(sys.ops[k].owner, c, d) :: Terminal(sys'.ops[k]))
      && (forall k | 0 <= k < |sys.ops| && !OfLineage(sys.ops[k].owner, c, d) :: sys'.ops[k] == sys.ops[k])
  {
    hide SysCore, AtRest, RetireBelow;
    var l := sys.lineage[(c, d) := Fenced];
    var doomed := OpsOfLineage(sys, c, d);
    DoomedAlike(sys, l, c, d);
    RetireBelowKeeps(sys, doomed, |sys.ops|, disks);
    RetireBelowCommutes(sys, doomed, |sys.ops|, disks, l, sys.closed, sys.snapshot);
    var sys1 := RetireBelow(sys, doomed, |sys.ops|, disks);
    forall t | 0 <= t < |sys1.ops| && (sys.closed || FencedOwner(sys1.(lineage := l), sys1.ops[t].owner)) ensures Terminal(sys1.ops[t]) {
      if Live(sys.ops[t]) {
        LiveFacts(sys, t);
        LiveIsUnfenced(sys, t);
      }
    }
    assert sys1.lineage == sys.lineage && sys1.closed == sys.closed && sys1.snapshot == sys.snapshot;
    RaiseKeeps(sys1, l, sys.closed, sys.snapshot);
    forall k | 0 <= k < |sys.ops| && OfLineage(sys.ops[k].owner, c, d) ensures Terminal(sys1.ops[k]) {
      if Live(sys.ops[k]) { LiveFacts(sys, k); }
    }
  }

  lemma LiveIsUnfenced(sys: Sys, t: nat)
    requires SysCore(sys) && t < |sys.ops| && Live(sys.ops[t])
    ensures !sys.closed && !FencedOwner(sys, sys.ops[t].owner)
  {
    assert TokenOk(sys, t);
  }

  /** No owner entry of another owner moves, and no entry appears. */
  ghost predicate OnlyOwners(sys: Sys, sys': Sys, ids: set<Id>) {
    && (forall k | k in sys'.owners :: k in sys.owners && sys'.owners[k] == sys.owners[k])
    && (forall k | k in sys.owners && k !in ids :: k in sys'.owners)
    && sys'.store.records.Keys <= sys.store.records.Keys
    && sys'.lineage == sys.lineage && sys'.closed == sys.closed && |sys'.ops| == |sys.ops|
  }

  lemma OnlyIdIsOnlyOwners(sys: Sys, sys': Sys, id: Id)
    requires OnlyId(sys, sys', id) && sys'.store.records.Keys <= sys.store.records.Keys
    ensures OnlyOwners(sys, sys', {id})
  {
  }

  lemma OnlyOwnersCompose(a: Sys, b: Sys, c: Sys, ids: set<Id>, ids': set<Id>)
    requires OnlyOwners(a, b, ids) && OnlyOwners(b, c, ids')
    ensures OnlyOwners(a, c, ids + ids')
  {
  }

  lemma {:induction false} DiscardEachKeeps(sys: Sys, ids: seq<Id>, disks: Id -> Disk)
    requires SysInv(sys)
    ensures var (sys', answers) := DiscardEach(sys, ids, disks);
      && SysInv(sys') && OnlyOwners(sys, sys', set id | id in ids) && sys'.store.result == sys.store.result
      && (Refused !in answers && Failed !in answers ==> forall id | id in ids :: id !in sys'.owners && id !in sys'.store.records)
    decreases |ids|
  {
    hide SysInv, Discard, OnlyId;
    if ids != [] {
      DiscardKeeps(sys, ids[0], disks(ids[0]));
      var (sys1, a) := Discard(sys, ids[0], disks(ids[0]));
      OnlyIdIsOnlyOwners(sys, sys1, ids[0]);
      DiscardEachKeeps(sys1, ids[1..], disks);
      var (sys2, answers) := DiscardEach(sys1, ids[1..], disks);
      assert a in [a] + answers && forall b | b in answers :: b in [a] + answers;
      OnlyOwnersCompose(sys, sys1, sys2, {ids[0]}, set id | id in ids[1..]);
      assert (set id | id in ids) == {ids[0]} + (set id | id in ids[1..]);
      assert forall id | id in ids :: id == ids[0] || id in ids[1..];
    } else {
      assert (set id | id in ids) == {};
    }
  }

  lemma PoisonKeeps(sys: Sys)
    requires SysInv(sys)
    ensures SysInv(sys.(poisoned := true))
  {
    hide StoreInv, AtRest, OpInv;
    var sys' := sys.(poisoned := true);
    forall t | 0 <= t < |sys'.ops| ensures TokenOk(sys', t) { assert TokenOk(sys, t); }
    forall id ensures IdOk(sys', id) { assert IdOk(sys, id); }
  }

  /**
   `discardController`: a clean answer leaves none of the lineage's committed artifacts in the owner
   ledger or the store, and no answer touches an entry of another owner.
   */
  lemma DiscardLineageKeeps(sys: Sys, c: Consumer, d: Controller, disks: nat -> Disk, order: seq<Id>, fs: Id -> Disk)
    requires SysInv(sys) && Lists(order, ArtifactsOfLineage(sys, c, d))
    ensures var (sys', a) := DiscardLineage(sys, c, d, disks, order, fs);
      && SysInv(sys')
      && sys'.lineage == sys.lineage[(c, d) := Fenced] && sys'.closed == sys.closed
      && (a == Clean ==>
            && ArtifactsOfLineage(sys', c, d) == {}
            && forall id | id in ArtifactsOfLineage(sys, c, d) :: id !in sys'.store.records)
      && (forall id | id in sys.owners && !OfLineage(sys.owners[id].owner, c, d) :: id in sys'.owners && sys'.owners[id] == sys.owners[id])
      && (forall id | id in sys'.owners :: id in sys.owners && sys'.owners[id] == sys.owners[id])
      && (a == Failed ==> sys'.poisoned)
  {
    hide SysInv, Fence, DiscardEach;
    FenceKeeps(sys, c, d, disks);
    var sys1 := Fence(sys, c, d, disks);
    DiscardEachKeeps(sys1, order, fs);
    PoisonKeeps(DiscardEach(sys1, order, fs).0);
  }

  // -- close --------------------------------------------------------------------------------------

  /** The runtime, closed to newcomers, its generations retired, its store not yet asked. */
  function Retired(sys: Sys, disks: nat -> Disk): Sys {
    RetireBelow(sys.(closed := true, snapshot := sys.tracked), sys.tracked, |sys.ops|, disks)
  }

  lemma RetiredKeeps(sys: Sys, disks: nat -> Disk)
    requires SysInv(sys)
    ensures var sys' := Retired(sys, disks);
      && SysInv(sys') && sys'.closed && sys'.lineage == sys.lineage && sys'.owners == sys.owners
  {
    hide SysCore, AtRest, RetireBelow;
    assert sys.(closed := true, snapshot := sys.tracked) == Flagged(sys, sys.lineage, true, sys.tracked);
    RetireBelowKeeps(sys, sys.tracked, |sys.ops|, disks);
    RetireBelowCommutes(sys, sys.tracked, |sys.ops|, disks, sys.lineage, true, sys.tracked);
    var sys1 := RetireBelow(sys, sys.tracked, |sys.ops|, disks);
    forall t | 0 <= t < |sys1.ops| ensures Terminal(sys1.ops[t]) {
      if Live(sys.ops[t]) { LiveFacts(sys, t); }
    }
    RaiseKeeps(sys1, sys.lineage, true, sys.tracked);
  }

  /** Every operation is terminal before the store is asked; asking again changes nothing. */
  lemma CloseRuntimeKeeps(sys: Sys, disks: nat -> Disk, o: CloseFs)
    requires SysInv(sys) && Lists(o.order, Retired(sys, disks).store.records.Keys)
    ensures var sys' := CloseRuntime(sys, disks, o);
      && SysInv(sys') && sys'.closed && sys'.lineage == sys.lineage
      && (sys.closed ==> sys' == sys)
  {
    hide SysInv, AtRest, RetireBelow, CloseRequest, Lists, ClosedOver, NotifySwept;
    if !sys.closed {
      RetiredKeeps(sys, disks);
      var sys1 := Retired(sys, disks);
      InvIsCore(sys1);
      CloseRequestIsClosedOver(sys1.store, o);
      var (st, told) := CloseRequest(sys1.store, o);
      ClosedOverKeeps(sys1, st);
      NotifySweptKeeps(sys1.(store := st), told);
    }
  }

  lemma SettledAgrees(sys: Sys, t: nat, op: Op)
    requires Sound(sys, t, op) && StoreInv(sys.store) && sys.store.result.Some?
    ensures var op' := SettleStoreClose(op, sys.store.result == Some(FailedClose));
      && Same(op, op') && Sound(sys, t, op') && (!op.released && Agrees(sys, t, op) ==> Agrees(sys, t, op'))
  {
    hide Exact, Paid, Permitted;
    SettleKeepsOpInv(op, sys.store.result == Some(FailedClose));
    assert sys.store.result.value.CleanClose? || sys.store.result == Some(FailedClose);
  }

  lemma SettleOneKeeps(sys: Sys, t: nat, failed: bool)
    requires SysInv(sys) && sys.store.result.Some? && failed == (sys.store.result == Some(FailedClose))
    ensures var sys' := if t in sys.snapshot && t < |sys.ops| then Land(sys, t, SettleStoreClose(sys.ops[t], failed)) else sys;
      && SysInv(sys') && sys'.store == sys.store && sys'.lineage == sys.lineage && sys'.closed == sys.closed && sys'.snapshot == sys.snapshot
  {
    hide SysCore, AtRest, Land, Sound, Agrees, SettleStoreClose, OpInv;
    if t in sys.snapshot && t < |sys.ops| {
      TokenIsOk(sys, t);
      CoreHasStore(sys);
      SettledAgrees(sys, t, sys.ops[t]);
      LandsKeep(sys, t, SettleStoreClose(sys.ops[t], failed));
      LandChangesBooksOnly(sys, t, SettleStoreClose(sys.ops[t], failed));
    }
  }

  lemma {:induction false} SettleBelowKeeps(sys: Sys, n: nat, failed: bool)
    requires SysInv(sys) && sys.store.result.Some? && failed == (sys.store.result == Some(FailedClose))
    ensures var sys' := SettleBelow(sys, n, failed);
      && SysInv(sys') && sys'.store == sys.store && sys'.lineage == sys.lineage && sys'.closed == sys.closed && sys'.snapshot == sys.snapshot
    decreases n
  {
    hide SysInv, Land, SettleStoreClose;
    if n > 0 {
      SettleBelowKeeps(sys, n - 1, failed);
      SettleOneKeeps(SettleBelow(sys, n - 1, failed), n - 1, failed);
    }
  }

  lemma SettledFlagKeeps(sys: Sys)
    requires SysInv(sys)
    ensures SysInv(sys.(settled := true))
  {
    hide StoreInv, AtRest, OpInv;
    var sys' := sys.(settled := true);
    forall t | 0 <= t < |sys'.ops| ensures TokenOk(sys', t) { assert TokenOk(sys, t); }
    forall id ensures IdOk(sys', id) { assert IdOk(sys, id); }
  }

  lemma StoreCloseSettlesKeeps(sys: Sys)
    requires SysInv(sys)
    ensures var sys' := StoreCloseSettles(sys);
      SysInv(sys') && sys'.store == sys.store && sys'.lineage == sys.lineage && sys'.closed == sys.closed
  {
    hide SysInv, SettleBelow;
    if !sys.settled && sys.store.result.Some? {
      SettledFlagKeeps(sys);
      SettleBelowKeeps(sys.(settled := true), |sys.ops|, sys.store.result == Some(FailedClose));
    }
  }

  // -- leases -------------------------------------------------------------------------------------

  lemma LeasingIsUnseen(s: Store, s': Store)
    requires SameBooks(s, s'.(records := s.records)) && s'.records.Keys == s.records.Keys
    requires forall k | k in s.records :: s'.records[k].consumer == s.records[k].consumer
    ensures Unseen(s, s')
  {
  }

  lemma AskedKeeps(sys: Sys, asked: map<Ticket, (Id, Consumer)>)
    requires SysInv(sys)
    ensures SysInv(sys.(asked := asked))
  {
    hide StoreInv, AtRest, OpInv;
    var sys' := sys.(asked := asked);
    forall t | 0 <= t < |sys'.ops| ensures TokenOk(sys', t) { assert TokenOk(sys, t); }
    forall id ensures IdOk(sys', id) { assert IdOk(sys, id); }
  }

  lemma SwapStoreKeeps(sys: Sys, st: Store)
    requires SysInv(sys) && AtRest(st) && Unseen(sys.store, st)
    ensures SysInv(sys.(store := st))
  {
    hide SysCore, AtRest, StoreInv;
    AtRestIsStoreInv(st);
    UnseenKeeps(sys, st);
  }

  /** Leasing moves no claim and no copy, and makes a record consuming at most. */
  lemma LeasingKeeps(sys: Sys, st: Store, id: Id, r: LeaseResult)
    requires SysInv(sys) && AtRest(st) && OnlyLease(sys.store, st, id, r)
    ensures SysInv(sys.(store := st)) && Onward(sys.store, st) && st.result == sys.store.result
  {
    hide SysInv, AtRest;
    LeasingIsUnseen(sys.store, st);
    SwapStoreKeeps(sys, st);
  }

  lemma NothingLeased(s: Store, id: Id)
    ensures OnlyLease(s, s, id, NoLease)
  {
  }

  lemma OtherStoreLasts(sys: Sys, st: Store)
    requires st.result == sys.store.result
    ensures Lasts(sys, sys.(store := st))
  {
  }

  lemma AskingLasts(sys: Sys, st: Store, id: Id, c: Consumer, controller: Option<Controller>, r: LeaseResult)
    requires Authorized(sys, id, c, controller) && st.result == sys.store.result
    ensures Lasts(sys, sys.(store := st, asked := if r.Queued? then sys.asked[r.ticket := (id, c)] else sys.asked))
  {
    assert !FencedEntry(sys, sys.owners, id);
  }

  lemma AcquireIs(sys: Sys, id: Id, c: Consumer, controller: Option<Controller>, identityHolds: bool)
    ensures var (st, r) := LeaseEnter(sys.store, id, c, identityHolds);
      var asked := if r.Queued? then sys.asked[r.ticket := (id, c)] else sys.asked;
      AcquireLease(sys, id, c, controller, identityHolds) ==
        if Authorized(sys, id, c, controller) then (sys.(store := st, asked := asked), r) else (sys, NoLease)
  {
    hide Authorized, LeaseEnter;
  }

  /** A lease is granted exactly to an authorized request for an available record while the permit is free, and queued while it is not. */
  lemma AcquireLeaseKeeps(sys: Sys, id: Id, c: Consumer, controller: Option<Controller>, identityHolds: bool)
    requires SysInv(sys)
    ensures var (sys', r) := AcquireLease(sys, id, c, controller, identityHolds);
      && SysInv(sys')
      && (r != NoLease ==> Authorized(sys, id, c, controller) && !Closing(sys.store))
      && (r.Granted? <==> Authorized(sys, id, c, controller) && Leasable(sys.store, id, c) && !sys.store.permit.busy && identityHolds)
      && (r.Queued? <==> Authorized(sys, id, c, controller) && Leasable(sys.store, id, c) && sys.store.permit.busy)
      && OnlyLease(sys.store, sys'.store, id, r)
      && Lasts(sys, sys') && Onward(sys.store, sys'.store)
  {
    hide SysInv, AcquireLease, Authorized, LeaseEnter, Lasts, Onward, Quietly, Leasable, OnlyLease, AtRest, Closing;
    AcquireIs(sys, id, c, controller, identityHolds);
    LastsReflexive(sys);
    ShrinksReflexive(sys.store);
    ShrinksIsQuiet(sys.store, sys.store);
    QuietIsOnward(sys.store, sys.store);
    NothingLeased(sys.store, id);
    if Authorized(sys, id, c, controller) {
      InvIsCore(sys);
      LeaseEnterKeeps(sys.store, id, c, identityHolds);
      var (st, r) := LeaseEnter(sys.store, id, c, identityHolds);
      LeasingKeeps(sys, st, id, r);
      var asked := if r.Queued? then sys.asked[r.ticket := (id, c)] else sys.asked;
      AskedKeeps(sys.(store := st), asked);
      AskingLasts(sys, st, id, c, controller, r);
    }
  }

  /** A request that waited is granted exactly by the store's own test; the owner ledger and the fence are not asked again. */
  lemma ResumeWaiterKeeps(sys: Sys, ticket: Ticket, identityHolds: bool)
    requires SysInv(sys) && ticket in sys.store.permit.handed && ticket in sys.asked
    ensures var (sys', r) := ResumeWaiter(sys, ticket, identityHolds);
      var (id, c) := sys.asked[ticket];
      && SysInv(sys')
      && (r.Granted? <==> Leasable(sys.store, id, c) && identityHolds)
      && !r.Queued?
      && (r.Granted? ==> !Closing(sys.store))
      && OnlyLease(sys.store, sys'.store, id, r)
      && Lasts(sys, sys') && Onward(sys.store, sys'.store)
  {
    hide SysInv, AtRest, WaiterResumes, Onward, Leasable, OnlyLease, Lasts, Closing;
    InvIsCore(sys);
    var (id, c) := sys.asked[ticket];
    WaiterResumesKeeps(sys.store, ticket, id, c, identityHolds);
    var (st, r) := WaiterResumes(sys.store, ticket, id, c, identityHolds);
    LeasingKeeps(sys, st, id, r);
    OtherStoreLasts(sys, st);
  }

  lemma PoisonedIsUnseen(s: Store)
    requires StoreInv(s)
    ensures Unseen(s, MarkUnhealthy(s)) && AtRest(MarkUnhealthy(s)) && MarkUnhealthy(s).result == s.result && MarkUnhealthy(s).unhealthy
  {
    hide StoreInv, AtRest;
    MarkUnhealthyKeeps(s);
  }

  lemma SameBooksUnseen(s: Store, s': Store)
    requires SameBooks(s, s')
    ensures Unseen(s, s')
  {
  }

  lemma UnseenCoreKeeps(sys: Sys, st: Store)
    requires SysCore(sys) && AtRest(st) && Unseen(sys.store, st)
    ensures SysInv(sys.(store := st))
  {
    hide SysCore, AtRest, StoreInv;
    AtRestIsStoreInv(st);
    UnseenKeeps(sys, st);
  }

  /** What the store is like right after a completing lease's deletion, proven or not. */
  lemma CompletionDeleted(s: Store, s': Store, lease: Lease, id: Id, ok: bool)
    requires StoreInv(s') && DeletedFrom(s, s', id, ok)
    requires !Closing(s) && s.permit.holder == Some(lease) && s.permit.heldId == Some(id) && s.permit.unfinished == {}
    ensures var st := if ok then s' else MarkUnhealthy(s');
      && Unseen(s', st) && StoreInv(st) && st.result == s.result
      && (AtRest(st) || (!Closing(st) && st.permit.holder == Some(lease) && st.permit.heldId == Some(id) && st.permit.unfinished == {} && id !in st.records))
      && (Closing(st) || st.permit.unfinished == {})
      && (st.unhealthy || id !in st.records)
  {
    hide StoreInv, AtRest;
    PoisonedIsUnseen(s');
    AtRestIsStoreInv(MarkUnhealthy(s'));
    if ok && Closing(s') { ClosingHoldsNothing(s'); }
  }

  lemma YieldedIsUnseen(s: Store, lease: Lease, id: Id)
    requires StoreInv(s)
    requires AtRest(s) || (!Closing(s) && s.permit.holder == Some(lease) && s.permit.heldId == Some(id) && s.permit.unfinished == {} && id !in s.records)
    requires Closing(s) || s.permit.unfinished == {}
    ensures var st := EndCompletion(s, lease);
      && AtRest(st) && Unseen(s, st) && st.result == s.result && st.unhealthy == s.unhealthy && st.records == s.records
      && st.permit.holder != Some(lease)
  {
    hide StoreInv, AtRest;
    EndCompletionKeeps(s, lease, id);
    if Closing(s) { ClosingHoldsNothing(s); }
    YieldsHolder(s, lease);
  }

  lemma YieldsHolder(s: Store, lease: Lease)
    ensures !Closing(s) ==> EndCompletion(s, lease).permit.holder != Some(lease)
    ensures EndCompletion(s, lease).unhealthy == s.unhealthy
  {
  }

  /** A completed lease leaves its record proven deleted, or the store poisoned; only then the permit moves on. */
  lemma CompleteLeaseKeeps(sys: Sys, lease: Lease, id: Id, d: Disk)
    requires SysInv(sys) && !Closing(sys.store) && lease in sys.store.permit.unfinished && sys.store.permit.heldId == Some(id)
    ensures var sys' := CompleteLease(sys, lease, id, d);
      && SysInv(sys') && sys'.lineage == sys.lineage && sys'.closed == sys.closed && sys'.store.result == sys.store.result
      && (sys'.store.unhealthy || id !in sys'.store.records)
      && sys'.store.permit.holder != Some(lease)
  {
    hide SysInv, SysCore, StoreInv, AtRest, Unseen, DeletedFrom, OnlyId, BeginCompletion, EndCompletion, DiscardOwned, MarkUnhealthy, SameBooks, Closing;
    InvIsCore(sys);
    BeginCompletionKeeps(sys.store, lease, id);
    var st := BeginCompletion(sys.store, lease, id);
    var sys1 := sys.(store := st);
    SameBooksUnseen(sys.store, st);
    UnseenKeeps(sys, st);
    DiscardOwnedKeeps(sys1, id, d);
    var (sys2, ok) := DiscardOwned(sys1, id, d);
    CoreHasStore(sys2);
    CompletionDeleted(st, sys2.store, lease, id, ok);
    OnlyIdFrame(sys1, sys2, id);
    var st3 := if ok then sys2.store else MarkUnhealthy(sys2.store);
    UnseenKeeps(sys2, st3);
    YieldedIsUnseen(st3, lease, id);
    UnseenCoreKeeps(sys2.(store := st3), EndCompletion(st3, lease));
    assert sys2.(store := sys2.store) == sys2;
    SameBooksResult(sys.store, st);
  }

  lemma CompletionFixed(sys: Sys, lease: Lease, id: Id, d: Disk)
    ensures Fixed(sys, CompleteLease(sys, lease, id, d))
  {
    hide DiscardOwned, Yield, Finish, MarkUnhealthy, Shrinks;
    var sys1 := sys.(store := BeginCompletion(sys.store, lease, id));
    var sys2 := DiscardOwned(sys1, id, d).0;
    DiscardFixed(sys1, id, d);
    OtherPermitFixed(sys, Finish(sys.store.permit, lease, id));
    FixedTransitive(sys, sys1, sys2);
    MarkUnhealthyFixed(sys2);
    FixedTransitive(sys, sys2, sys2.(store := MarkUnhealthy(sys2.store)));
    var sys3 := if DiscardOwned(sys1, id, d).1 then sys2 else sys2.(store := MarkUnhealthy(sys2.store));
    OtherPermitFixed(sys3, Yield(sys3.store.permit, lease, Closing(sys3.store)));
    FixedTransitive(sys, sys3, CompleteLease(sys, lease, id, d));
  }

  lemma OtherPermitFixed(sys: Sys, p: Permit)
    ensures Fixed(sys, sys.(store := sys.store.(permit := p)))
  {
  }

  lemma MarkUnhealthyFixed(sys: Sys)
    ensures Fixed(sys, sys.(store := MarkUnhealthy(sys.store)))
  {
    hide SettleAll;
  }

  lemma FixedTransitive(a: Sys, b: Sys, c: Sys)
    requires Fixed(a, b) && Fixed(b, c)
    ensures Fixed(a, c)
  {
    hide Shrinks;
    ShrinksTransitive(a.store, b.store, c.store);
  }

  lemma OtherOpsFixed(sys: Sys, ops: seq<Op>)
    ensures Fixed(sys, sys.(ops := ops))
  {
  }

  lemma LandFixed(sys: Sys, t: nat, op: Op)
    requires t < |sys.ops|
    ensures Fixed(sys, Land(sys, t, op))
  {
    hide Land;
    LandChangesBooksOnly(sys, t, op);
  }

  lemma OnlyIdFrame(sys: Sys, sys': Sys, id: Id)
    requires OnlyId(sys, sys', id)
    ensures sys'.lineage == sys.lineage && sys'.closed == sys.closed
  {
  }

  lemma SameBooksResult(s: Store, s': Store)
    requires SameBooks(s, s')
    ensures s'.result == s.result
  {
  }

  // -- what no event undoes -----------------------------------------------------------------------

  /** The store only lost things, nothing was asked, and no owner entry appeared. */
  predicate Fixed(sys: Sys, sys': Sys) {
    && sys'.lineage == sys.lineage && sys'.closed == sys.closed && sys'.poisoned == sys.poisoned
    && sys'.store.result == sys.store.result && sys'.store.closeRequested == sys.store.closeRequested && sys'.asked == sys.asked
    && sys'.snapshot == sys.snapshot && (sys'.settled ==> sys.settled || sys.store.result.Some?)
    && (forall k | k in sys'.owners :: k in sys.owners && sys'.owners[k] == sys.owners[k])
    && Shrinks(sys.store, sys'.store)
  }

  predicate FencedEntry(sys: Sys, owners: map<Id, Entry>, id: Id) { id in owners && FencedOwner(sys, owners[id].owner) }

  /** Under a fence no owner entry appears, and nobody new asks for what an entry of its lineage owns. */
  ghost predicate FenceHolds(sys: Sys, sys': Sys) {
    && (forall k | FencedEntry(sys, sys'.owners, k) :: k in sys.owners && sys'.owners[k] == sys.owners[k])
    && (forall t | t in sys'.asked && FencedEntry(sys, sys'.owners, sys'.asked[t].0) :: t in sys.asked && sys'.asked[t] == sys.asked[t])
  }

  /** A fence, the closed flag and the one close result are for ever. */
  ghost predicate Lasts(sys: Sys, sys': Sys) {
    && (forall k | k in sys.lineage :: k in sys'.lineage && (sys.lineage[k] == Fenced ==> sys'.lineage[k] == Fenced))
    && (sys.closed ==> sys'.closed)
    && (sys.store.result.Some? ==> sys'.store.result == sys.store.result)
    && FenceHolds(sys, sys')
  }

  lemma NotifyFixed(sys: Sys, id: Id, closeOwned: bool, nested: Fs)
    ensures Fixed(sys, Notify(sys, id, closeOwned, nested))
  {
    hide QuietDiscard, NoteDiscarded, Land;
    QuietDiscardShrinks(sys.store, id, nested);
    if id in sys.reserved && sys.reserved[id] < |sys.ops| {
      var t := sys.reserved[id];
      var (st, a) := QuietDiscard(sys.store, id, nested);
      LandChangesBooksOnly(sys, t, NoteDiscarded(sys.ops[t], closeOwned, Clean));
      LandChangesBooksOnly(sys.(store := st), t, NoteDiscarded(sys.ops[t], closeOwned, a));
    }
  }

  lemma LogicalHalfFixed(sys: Sys, id: Id, del: Deleted, nested: Fs)
    ensures Fixed(sys, LogicalHalf(sys, id, del, nested))
  {
    hide Notify, FreeCommitted, Notifies;
    var sys1 := sys.(store := Forget(sys.store, id, del));
    NotifyFixed(sys1, id, false, nested);
    FreeCommittedShrinks(sys1.store, id);
    FreeCommittedShrinks(Notify(sys1, id, false, nested).store, id);
  }

  lemma DiscardFixed(sys: Sys, id: Id, d: Disk)
    ensures Fixed(sys, Discard(sys, id, d).0) && Fixed(sys, DiscardOwned(sys, id, d).0)
  {
    hide LogicalHalf, DeletePhysical, Gate;
    DeletePhysicalShrinks(sys.store, id, d.outer);
    var (st, del) := DeletePhysical(sys.store, id, d.outer);
    if del.Some? {
      LogicalHalfFixed(sys.(store := st), id, del.value, d.nested);
    }
  }

  lemma InvalidateFixed(sys: Sys, t: nat, reason: Reason, d: Disk)
    requires t < |sys.ops|
    ensures Fixed(sys, InvalidateOp(sys, t, reason, d))
  {
    hide Discard, Retire, Answered, TryRelease, Land, Terminal, Fixed;
    OtherOpsFixed(sys, sys.ops);
    if !Terminal(sys.ops[t]) {
      var ops := sys.ops[t := Retire(sys.ops[t], reason)];
      var sys0 := sys.(ops := ops);
      OtherOpsFixed(sys, ops);
      DiscardFixed(sys0, sys.ops[t].id, d);
      var (sys1, a) := Discard(sys0, sys.ops[t].id, d);
      FixedTransitive(sys, sys0, sys1);
      if t < |sys1.ops| {
        LandFixed(sys1, t, TryRelease(Answered(sys1.ops[t], a)));
        FixedTransitive(sys, sys1, InvalidateOp(sys, t, reason, d));
      }
    }
  }

  lemma StagingFixed(sys: Sys, t: nat, d: Disk)
    requires t < |sys.ops|
    ensures Fixed(sys, RegisterDownload(sys, t, d).0) && Fixed(sys, AccessorsEndAt(sys, t, d))
  {
    hide InvalidateOp, Register, EndStage;
    InvalidateFixed(sys, t, CaptureFailed, d);
    var op := sys.ops[t];
    InvalidateFixed(sys.(ops := sys.ops[t := op.(events := op.events + 1)]), t, MultipleArtifacts, d);
  }

  lemma DeliverFixed(sys: Sys, t: nat, d: Disk)
    requires t < |sys.ops| && sys.ops[t].job.Captured?
    ensures Fixed(sys, DeliverCapture(sys, t, d))
  {
    hide Discard, InvalidateOp, Answered, EndStage, Fixed, Terminal;
    DiscardFixed(sys, sys.ops[t].id, d);
    InvalidateFixed(sys, t, StoreFailure, d);
    ThenOpsFixed(sys, sys);
    ThenOpsFixed(sys, InvalidateOp(sys, t, StoreFailure, d));
    ThenOpsFixed(sys, Discard(sys, sys.ops[t].id, d).0);
  }

  lemma ThenOpsFixed(sys: Sys, sys1: Sys)
    ensures Fixed(sys, sys1) || sys1 == sys ==> forall ops: seq<Op> :: Fixed(sys, sys1.(ops := ops))
  {
  }

  lemma {:induction false} RetireBelowFixed(sys: Sys, doomed: set<nat>, n: nat, disks: nat -> Disk)
    ensures Fixed(sys, RetireBelow(sys, doomed, n, disks))
    decreases n
  {
    hide InvalidateOp;
    if n > 0 {
      RetireBelowFixed(sys, doomed, n - 1, disks);
      var sys1 := RetireBelow(sys, doomed, n - 1, disks);
      if n - 1 in doomed && n - 1 < |sys1.ops| {
        InvalidateFixed(sys1, n - 1, RuntimeInvalidated, disks(n - 1));
      }
    }
  }

  lemma CaptureStartLasts(sys: Sys, t: nat, o: StageOutcome)
    requires SysInv(sys) && t < |sys.ops| && sys.ops[t].job == Asking && Live(sys.ops[t]) && Bounded(o)
    ensures Lasts(sys, StartCapture(sys, t, o)) && Quietly(sys.store, StartCapture(sys, t, o).store)
  {
    hide Sound, StoreInv, AtRest, CaptureBegin, SysCore;
    LiveFacts(sys, t);
    TokenIsOk(sys, t);
    NotCapturing(sys, t);
    CaptureBeginKeeps(sys.store, sys.ops[t].id, sys.ops[t].owner.consumer, o);
    CaptureBeginQuietly(sys.store, sys.ops[t].id, sys.ops[t].owner.consumer, o);
  }

  lemma LastsReflexive(a: Sys)
    ensures Lasts(a, a)
  {
  }

  lemma {:induction false} NotifySweptFixed(sys: Sys, ids: seq<Id>)
    ensures Fixed(sys, NotifySwept(sys, ids))
    decreases |ids|
  {
    hide Notify;
    if ids != [] {
      NotifyFixed(sys, ids[0], true, Fs(false, false));
      NotifySweptFixed(Notify(sys, ids[0], true, Fs(false, false)), ids[1..]);
    }
  }

  lemma SegmentLasts(sys: Sys, t: nat, st: Store, r: CaptureResult, o: CloseFs)
    requires SysInv(sys) && t < |sys.ops| && sys.ops[t].job == Capturing
    requires SegmentOf(sys.store, sys.ops[t].id, st, r) && Lists(o.order, st.records.Keys) && Quietly(sys.store, st)
    ensures Lasts(sys, CaptureSegment(sys, t, st, r, o)) && Quietly(sys.store, CaptureSegment(sys, t, st, r, o).store)
  {
    hide SysInv, AtRest, AfterCapture, Lists, NotifySwept, CaptureSettled, Quietly, Shrinks;
    AfterCaptureIsClosedOver(st, o);
    CloseRequestShrinks(st, o);
    QuietThenShrinks(sys.store, st, AfterCapture(st, o).0);
    var (st1, told) := AfterCapture(st, o);
    var sys1 := sys.(ops := sys.ops[t := CaptureSettled(sys.ops[t], r == Published)], store := st1);
    NotifySweptFixed(sys1, told);
    QuietThenShrinks(sys.store, st1, NotifySwept(sys1, told).store);
  }

  lemma CloseLasts(sys: Sys, disks: nat -> Disk, o: CloseFs)
    requires SysInv(sys) && Lists(o.order, Retired(sys, disks).store.records.Keys)
    ensures Lasts(sys, CloseRuntime(sys, disks, o)) && Shrinks(sys.store, CloseRuntime(sys, disks, o).store)
  {
    hide SysInv, AtRest, Lists, CloseRequest, NotifySwept, RetireBelow, Shrinks, Retired, FenceHolds;
    LastsReflexive(sys);
    ShrinksReflexive(sys.store);
    if !sys.closed {
      var sys0 := sys.(closed := true, snapshot := sys.tracked);
      var sys1 := Retired(sys, disks);
      RetiredKeeps(sys, disks);
      assert sys1 == RetireBelow(sys0, sys.tracked, |sys.ops|, disks) by { RetiredIs(sys, disks); }
      RetireBelowFixed(sys0, sys.tracked, |sys.ops|, disks);
      InvIsCore(sys1);
      CloseRequestIsClosedOver(sys1.store, o);
      var (st, told) := CloseRequest(sys1.store, o);
      var sys2 := sys1.(store := st);
      CloseRequestShrinks(sys1.store, o);
      NotifySweptFixed(sys2, told);
      var sys3 := NotifySwept(sys2, told);
      ShrinksTransitive(sys.store, sys1.store, st);
      ShrinksTransitive(sys.store, st, sys3.store);
      FixedFenceHolds(sys, sys3);
    }
  }

  lemma RetiredIs(sys: Sys, disks: nat -> Disk)
    ensures Retired(sys, disks) == RetireBelow(sys.(closed := true, snapshot := sys.tracked), sys.tracked, |sys.ops|, disks)
  {
  }

  lemma FixedFenceHolds(sys: Sys, sys': Sys)
    requires sys'.asked == sys.asked && forall k | k in sys'.owners :: k in sys.owners && sys'.owners[k] == sys.owners[k]
    ensures FenceHolds(sys, sys')
  {
  }

  lemma {:induction false} SettleBelowFixed(sys: Sys, n: nat, failed: bool)
    ensures Fixed(sys, SettleBelow(sys, n, failed))
    decreases n
  {
    hide Land, SettleStoreClose;
    if n > 0 {
      SettleBelowFixed(sys, n - 1, failed);
      var sys1 := SettleBelow(sys, n - 1, failed);
      if n - 1 < |sys1.ops| { LandChangesBooksOnly(sys1, n - 1, SettleStoreClose(sys1.ops[n - 1], failed)); }
    }
  }

  lemma CloseSettlesFixed(sys: Sys)
    ensures Fixed(sys, StoreCloseSettles(sys))
  {
    hide SettleBelow;
    SettleBelowFixed(sys.(settled := true), |sys.ops|, sys.store.result == Some(FailedClose));
  }

  lemma FenceLasts(sys: Sys, c: Consumer, d: Controller, disks: nat -> Disk)
    ensures Lasts(sys, Fence(sys, c, d, disks)) && Shrinks(sys.store, Fence(sys, c, d, disks).store)
  {
    hide RetireBelow;
    var sys1 := sys.(lineage := sys.lineage[(c, d) := Fenced]);
    RetireBelowFixed(sys1, OpsOfLineage(sys1, c, d), |sys.ops|, disks);
  }

  lemma {:induction false} DiscardEachFixed(sys: Sys, ids: seq<Id>, disks: Id -> Disk)
    ensures Fixed(sys, DiscardEach(sys, ids, disks).0)
    decreases |ids|
  {
    hide Discard;
    if ids != [] {
      DiscardFixed(sys, ids[0], disks(ids[0]));
      DiscardEachFixed(Discard(sys, ids[0], disks(ids[0])).0, ids[1..], disks);
    }
  }

  lemma DiscardLineageLasts(sys: Sys, c: Consumer, d: Controller, disks: nat -> Disk, order: seq<Id>, fs: Id -> Disk)
    ensures Lasts(sys, DiscardLineage(sys, c, d, disks, order, fs).0)
    ensures Shrinks(sys.store, DiscardLineage(sys, c, d, disks, order, fs).0.store)
  {
    hide Fence, DiscardEach;
    FenceLasts(sys, c, d, disks);
    DiscardEachFixed(Fence(sys, c, d, disks), order, fs);
  }
}
