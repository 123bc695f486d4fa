/** A reachable grant that nobody is authorized for: two captures, two requests, a fence, a completion. */
module RuntimeWitness {
  import opened Common
  import opened ReservationLedger
  import opened PermitModel
  import opened OperationModel
  import opened StoreModel
  import opened StoreHistory
  import opened RuntimeModel
  import opened RuntimeInvariants
  import opened RuntimeProofs
  import opened RuntimeSteps
  import opened RuntimeRuns
  import opened RuntimeOutcomes
  import Theorems = RuntimeTheorems

  type Event = Theorems.Event

  const GOOD: Fs := Fs(true, true)
  const DISK: Disk := Disk(GOOD, GOOD)
  const DISKS: nat -> Disk := _ => DISK

  function Close(order: seq<Id>): CloseFs { CloseFs(true, order, _ => GOOD, true, true, true, true) }

  // -- reaching a state -----------------------------------------------------------------------------

  ghost predicate Reaches(a: Sys, b: Sys) { exists es :: Theorems.Run(a, es) == b }

  lemma {:induction false} RunAppend(sys: Sys, es: seq<Event>, e: Event)
    ensures var sys' := Theorems.Run(sys, es);
      Theorems.Run(sys, es + [e]) == if Theorems.Enabled(sys', e) then Theorems.Step(sys', e) else sys'
    decreases |es|
  {
    hide Theorems.Enabled, Theorems.Step;
    if es == [] {
      assert es + [e] == [e] && [e][1..] == [];
    } else {
      assert (es + [e])[1..] == es[1..] + [e];
      RunAppend(if Theorems.Enabled(sys, es[0]) then Theorems.Step(sys, es[0]) else sys, es[1..], e);
    }
  }

  lemma ReachesStep(a: Sys, b: Sys, e: Event)
    requires Reaches(a, b) && Theorems.Enabled(b, e)
    ensures Reaches(a, Theorems.Step(b, e))
  {
    hide Theorems.Enabled, Theorems.Step, Theorems.Run;
    var es :| Theorems.Run(a, es) == b;
    RunAppend(a, es, e);
    assert Theorems.Run(a, es + [e]) == Theorems.Step(b, e);
  }

  lemma ReachesInv(a: Sys, b: Sys)
    requires SysInv(a) && Reaches(a, b)
    ensures SysInv(b)
  {
    hide SysInv, Theorems.Run, Lasts, Kept;
    var es :| Theorems.Run(a, es) == b;
    Theorems.RunKeepsInv(a, es);
  }

  // -- one capture that goes well -------------------------------------------------------------------

  function At(b: Sys, t: nat, st: Store, owners: map<Id, Entry>, op: Op): Sys
    requires t < |b.ops|
  {
    b.(store := st, owners := owners, ops := b.ops[t := op])
  }

  function Begun(sys: Sys, owner: Owner, id: Id): Sys { Create(sys, owner, id).0 }

  function Asked(id: Id, owner: Owner): Op { NewOp(id, owner).(events := 1, active := 1, download := true, job := Asking) }

  function StagedStore(s: Store, id: Id, c: Consumer): Store
    requires CaptureAdmitted(s, id, c)
  {
    Sized(Opened(s, id, c), id, 1)
  }

  function LinkedStore(s: Store, id: Id, c: Consumer): Store
    requires CaptureAdmitted(s, id, c)
  {
    var s1 := StagedStore(s, id, c);
    s1.(inflight := s1.inflight[id := s1.inflight[id].(stage := Linked)])
  }

  function PublishedStore(s: Store, id: Id, c: Consumer): Store
    requires CaptureAdmitted(s, id, c)
  {
    var s1 := LinkedStore(s, id, c);
    Finally(s1.(records := s1.records[id := Record(c, 1, 0, Retrievable)]), id, true, false)
  }

  predicate Ready(sys: Sys, owner: Owner, id: Id) {
    && !sys.closed && !sys.poisoned && !FencedOwner(sys, owner) && id !in sys.reserved
    && CaptureAdmitted(sys.store, id, owner.consumer) && id !in sys.store.tombstones && !sys.store.identityLost
  }

  /** Everything a good capture changes. */
  function Produced(sys: Sys, owner: Owner, id: Id): Sys
    requires Ready(sys, owner, id)
  {
    var b := Begun(sys, owner, id);
    At(b, |sys.ops|, PublishedStore(sys.store, id, owner.consumer), sys.owners[id := Entry(|sys.ops|, owner)],
       Asked(id, owner).(job := NoJob, download := false, provisional := true, active := 0,
                         state := Committed(Available), waitingForArtifact := true))
  }

  lemma BeginsAndRegisters(sys: Sys, owner: Owner, id: Id)
    requires Ready(sys, owner, id)
    ensures var b := Begun(sys, owner, id);
      && Theorems.Enabled(sys, Theorems.Creates(owner, id)) && Theorems.Step(sys, Theorems.Creates(owner, id)) == b
      && |b.ops| == |sys.ops| + 1 && b.store == sys.store && b.owners == sys.owners
      && Theorems.Enabled(b, Theorems.Registers(|sys.ops|, DISK))
      && Theorems.Step(b, Theorems.Registers(|sys.ops|, DISK)) == At(b, |sys.ops|, b.store, b.owners, Asked(id, owner))
  {
  }

  lemma Stages(b: Sys, t: nat, owner: Owner, id: Id)
    requires t < |b.ops| && CaptureAdmitted(b.store, id, owner.consumer)
    ensures var e := Theorems.CaptureStarts(t, StagedOk(1));
      var sys := At(b, t, b.store, b.owners, Asked(id, owner));
      && Theorems.Enabled(sys, e)
      && Theorems.Step(sys, e) == At(b, t, StagedStore(b.store, id, owner.consumer), b.owners, Asked(id, owner).(job := Capturing))
  {
    hide Opened, Sized;
    OpenedHasToken(b.store, id, owner.consumer);
  }

  lemma StagedHas(s: Store, id: Id, c: Consumer)
    requires CaptureAdmitted(s, id, c)
    ensures var s1 := StagedStore(s, id, c);
      && s1.inflight.Keys == s.inflight.Keys + {id} && s1.inflight[id].token in s1.ledger.objects && s1.inflight[id].consumer == c
      && s1.records == s.records && s1.tombstones == s.tombstones && s1.permit == s.permit && s1.inflight[id].size == 1
      && s1.closeRequested == s.closeRequested && s1.unhealthy == s.unhealthy && s1.identityLost == s.identityLost && s1.result == s.result
  {
    OpenedHasToken(s, id, c);
  }

  lemma Links(b: Sys, t: nat, owner: Owner, id: Id, order: seq<Id>)
    requires t < |b.ops| && CaptureAdmitted(b.store, id, owner.consumer) && Lists(order, b.store.records.Keys)
    requires id !in b.store.tombstones && !b.store.identityLost
    ensures var e := Theorems.CaptureLinks(t, true, true, true, Close(order));
      var op := Asked(id, owner).(job := Capturing);
      var sys := At(b, t, StagedStore(b.store, id, owner.consumer), b.owners, op);
      && Theorems.Enabled(sys, e)
      && Theorems.Step(sys, e) == At(b, t, LinkedStore(b.store, id, owner.consumer), b.owners, op)
  {
    hide StagedStore, Lists;
    StagedHas(b.store, id, owner.consumer);
  }

  lemma LinkedHas(s: Store, id: Id, c: Consumer)
    requires CaptureAdmitted(s, id, c)
    ensures var s1 := LinkedStore(s, id, c);
      && id in s1.inflight && s1.inflight[id].token in s1.ledger.objects && s1.inflight[id].consumer == c && s1.inflight[id].size == 1
      && s1.records == s.records && s1.tombstones == s.tombstones && s1.permit == s.permit
      && s1.closeRequested == s.closeRequested && s1.unhealthy == s.unhealthy && s1.identityLost == s.identityLost
  {
    hide StagedStore;
    StagedHas(s, id, c);
  }

  lemma PublishedHas(s: Store, id: Id, c: Consumer)
    requires CaptureAdmitted(s, id, c)
    ensures var s' := PublishedStore(s, id, c);
      && s'.records == s.records[id := Record(c, 1, 0, Retrievable)] && s'.permit == s.permit
      && s'.inflight.Keys == s.inflight.Keys - {id} && s'.tombstones == s.tombstones - {id}
      && s'.closeRequested == s.closeRequested && s'.unhealthy == s.unhealthy && s'.identityLost == s.identityLost
  {
    hide Opened, Sized, ReleaseStage;
    StagedHas(s, id, c);
    LinkedHas(s, id, c);
  }

  lemma Publishes(b: Sys, t: nat, owner: Owner, id: Id, order: seq<Id>)
    requires t < |b.ops| && CaptureAdmitted(b.store, id, owner.consumer) && Lists(order, b.store.records.Keys + {id})
    requires id !in b.store.tombstones && !b.store.identityLost
    ensures var e := Theorems.CaptureCommits(t, true, true, true, 0, Close(order));
      var op := Asked(id, owner);
      var sys := At(b, t, LinkedStore(b.store, id, owner.consumer), b.owners, op.(job := Capturing));
      && Theorems.Enabled(sys, e)
      && Theorems.Step(sys, e) == At(b, t, PublishedStore(b.store, id, owner.consumer), b.owners, op.(job := Captured(true)))
  {
    hide LinkedStore, Lists, Finally;
    LinkedHas(b.store, id, owner.consumer);
    PublishedHas(b.store, id, owner.consumer);
    var st := PublishedStore(b.store, id, owner.consumer);
    assert st.records.Keys == b.store.records.Keys + {id};
  }

  lemma Settles(b: Sys, t: nat, st: Store, owner: Owner, id: Id)
    requires t < |b.ops| && b.ops[t].released == false
    ensures var op := Asked(id, owner);
      var ended := op.(job := Ending, download := false, provisional := true);
      var sys := At(b, t, st, b.owners, op.(job := Captured(true)));
      var sys1 := At(b, t, st, b.owners, ended);
      var sys2 := At(b, t, st, b.owners, ended.(job := NoJob, active := 0));
      && Theorems.Enabled(sys, Theorems.Delivers(t, DISK)) && Theorems.Step(sys, Theorems.Delivers(t, DISK)) == sys1
      && Theorems.Enabled(sys1, Theorems.JobEnds(t)) && Theorems.Step(sys1, Theorems.JobEnds(t)) == sys2
  {
  }

  lemma Decides(b: Sys, t: nat, st: Store, owner: Owner, id: Id)
    requires t < |b.ops|
    ensures var ended := Asked(id, owner).(job := NoJob, download := false, provisional := true, active := 0);
      var sealed := ended.(state := Sealing);
      var sys2 := At(b, t, st, b.owners, ended);
      var sys3 := At(b, t, st, b.owners, sealed);
      && Theorems.Enabled(sys2, Theorems.Seals(t)) && Theorems.Step(sys2, Theorems.Seals(t)) == sys3
      && Theorems.Enabled(sys3, Theorems.Commits(t))
      && Theorems.Step(sys3, Theorems.Commits(t))
           == At(b, t, st, b.owners[id := Entry(t, owner)], ended.(state := Committed(Available), waitingForArtifact := true))
  {
  }

  /** A capture that nothing disturbs is committed, and its record and its owner entry are there. */
  lemma CaptureIsReachable(start: Sys, sys: Sys, owner: Owner, id: Id, order: seq<Id>)
    requires Reaches(start, sys) && Ready(sys, owner, id) && Lists(order, sys.store.records.Keys) && Lists(order + [id], sys.store.records.Keys + {id})
    ensures Reaches(start, Produced(sys, owner, id))
  {
    hide Reaches, Theorems.Step, Theorems.Enabled, Create, Lists, StagedStore, LinkedStore, PublishedStore;
    var t := |sys.ops|;
    var b := Begun(sys, owner, id);
    var st := PublishedStore(sys.store, id, owner.consumer);
    BeginsAndRegisters(sys, owner, id);
    ReachesStep(start, sys, Theorems.Creates(owner, id));
    ReachesStep(start, b, Theorems.Registers(t, DISK));
    Stages(b, t, owner, id);
    ReachesStep(start, At(b, t, b.store, b.owners, Asked(id, owner)), Theorems.CaptureStarts(t, StagedOk(1)));
    Links(b, t, owner, id, order);
    ReachesStep(start, At(b, t, StagedStore(b.store, id, owner.consumer), b.owners, Asked(id, owner).(job := Capturing)),
                Theorems.CaptureLinks(t, true, true, true, Close(order)));
    Publishes(b, t, owner, id, order + [id]);
    ReachesStep(start, At(b, t, LinkedStore(b.store, id, owner.consumer), b.owners, Asked(id, owner).(job := Capturing)),
                Theorems.CaptureCommits(t, true, true, true, 0, Close(order + [id])));
    BegunIsUnreleased(sys, owner, id);
    Settles(b, t, st, owner, id);
    ReachesStep(start, At(b, t, st, b.owners, Asked(id, owner).(job := Captured(true))), Theorems.Delivers(t, DISK));
    var ended := Asked(id, owner).(job := Ending, download := false, provisional := true);
    ReachesStep(start, At(b, t, st, b.owners, ended), Theorems.JobEnds(t));
    Decides(b, t, st, owner, id);
    ReachesStep(start, At(b, t, st, b.owners, ended.(job := NoJob, active := 0)), Theorems.Seals(t));
    ReachesStep(start, At(b, t, st, b.owners, ended.(job := NoJob, active := 0, state := Sealing)), Theorems.Commits(t));
  }

  lemma BegunIsUnreleased(sys: Sys, owner: Owner, id: Id)
    requires Ready(sys, owner, id)
    ensures !Begun(sys, owner, id).ops[|sys.ops|].released
  {
  }

  // -- the run --------------------------------------------------------------------------------------

  const AMPLE: Limits := Limits(4 * MAX_ARTIFACT_BYTES, 4, 4 * MAX_ARTIFACT_BYTES, 4)

  function First(c: Consumer, a: Id): Sys { Produced(EmptySys(AMPLE), ConsumerOwned(c), a) }

  function Second(c: Consumer, d: Controller, a: Id, b: Id): Sys
    requires a != b
  {
    FirstAdmits(c, a, b);
    Produced(First(c, a), DriveOwned(c, d), b)
  }

  lemma EmptyIsReady(c: Consumer, a: Id)
    ensures Ready(EmptySys(AMPLE), ConsumerOwned(c), a)
  {
  }

  lemma PublishedLedger(s: Store, id: Id, c: Consumer)
    requires CaptureAdmitted(s, id, c) && s.nextToken !in s.ledger.objects
    ensures var l := PublishedStore(s, id, c).ledger;
      && l.limits == s.ledger.limits && l.live == s.ledger.live[id := s.nextToken]
      && l.count == s.ledger.count + 1 && l.bytes == s.ledger.bytes + 1 && l.stagePermits == s.ledger.stagePermits
      && TallyOf(l, c) == Tally(TallyOf(s.ledger, c).count + 1, TallyOf(s.ledger, c).bytes + 1)
  {
  }

  lemma FirstAdmits(c: Consumer, a: Id, b: Id)
    requires a != b
    ensures Ready(EmptySys(AMPLE), ConsumerOwned(c), a)
    ensures forall d :: Ready(First(c, a), DriveOwned(c, d), b)
  {
    hide PublishedStore;
    EmptyIsReady(c, a);
    PublishedLedger(EmptyStore(AMPLE), a, c);
    PublishedHas(EmptyStore(AMPLE), a, c);
  }

  /** Two committed artifacts, one of them of a drive; nobody has asked for either. */
  predicate TwoArtifacts(sys: Sys, c: Consumer, d: Controller, a: Id, b: Id) {
    && a in sys.owners && sys.owners[a].owner == ConsumerOwned(c)
    && b in sys.owners && sys.owners[b].owner == DriveOwned(c, d)
    && (forall k | k in {a, b} :: k in sys.store.records && sys.store.records[k].consumer == c && sys.store.records[k].status == Retrievable)
    && (forall t | 0 <= t < |sys.ops| :: Terminal(sys.ops[t]))
    && !Closing(sys.store) && !sys.store.identityLost
  }

  lemma FirstReached(c: Consumer, a: Id)
    ensures Reaches(EmptySys(AMPLE), First(c, a)) && First(c, a).store.records == map[a := Record(c, 1, 0, Retrievable)]
  {
    hide Reaches, PublishedStore;
    StartIsReached(EmptySys(AMPLE));
    EmptyIsReady(c, a);
    PublishedHas(EmptyStore(AMPLE), a, c);
    CaptureIsReachable(EmptySys(AMPLE), EmptySys(AMPLE), ConsumerOwned(c), a, []);
  }

  lemma SecondReached(c: Consumer, d: Controller, a: Id, b: Id)
    requires a != b
    ensures Reaches(EmptySys(AMPLE), Second(c, d, a, b))
  {
    hide Reaches, First, Produced, Ready;
    FirstAdmits(c, a, b);
    FirstReached(c, a);
    assert Ready(First(c, a), DriveOwned(c, d), b);
    CaptureIsReachable(EmptySys(AMPLE), First(c, a), DriveOwned(c, d), b, [a]);
  }

  lemma BothCaptured(c: Consumer, d: Controller, a: Id, b: Id)
    requires a != b
    ensures var sys := Second(c, d, a, b);
      && TwoArtifacts(sys, c, d, a, b) && sys.store.permit == FREE && sys.lineage == map[(c, d) := Active]
  {
    hide PublishedStore;
    FirstAdmits(c, a, b);
    PublishedHas(EmptyStore(AMPLE), a, c);
    assert Ready(First(c, a), DriveOwned(c, d), b);
    PublishedHas(First(c, a).store, b, c);
  }

  lemma StartIsReached(a: Sys)
    ensures Reaches(a, a)
  {
    var none: seq<Event> := [];
    assert Theorems.Run(a, none) == a;
  }

  /** One lease held, one request queued behind it. */
  lemma OneHeldOneQueued(sys: Sys, c: Consumer, d: Controller, a: Id, b: Id)
    requires a != b && TwoArtifacts(sys, c, d, a, b) && sys.store.permit == FREE && sys.lineage == map[(c, d) := Active]
    ensures var sys1 := Theorems.Step(sys, Theorems.Acquires(a, c, None, true));
      var sys2 := Theorems.Step(sys1, Theorems.Acquires(b, c, Some(d), true));
      && sys2.store.permit == Enqueue(Take(FREE, a)) && 0 in sys2.asked && sys2.asked[0] == (b, c)
      && b in sys2.store.records && sys2.store.records[b] == sys.store.records[b] && a in sys2.store.records
      && sys2.ops == sys.ops && sys2.owners == sys.owners && sys2.reserved == sys.reserved && !Closing(sys2.store) && !sys2.store.identityLost
  {
  }

  lemma FencingTerminal(sys: Sys, c: Consumer, d: Controller)
    requires forall t | 0 <= t < |sys.ops| :: Terminal(sys.ops[t])
    ensures Theorems.Step(sys, Theorems.Fences(c, d, DISKS)) == sys.(lineage := sys.lineage[(c, d) := Fenced])
  {
    hide RetireBelow, OpsOfLineage;
    var sys1 := sys.(lineage := sys.lineage[(c, d) := Fenced]);
    RetiringTerminal(sys1, OpsOfLineage(sys1, c, d), |sys.ops|, DISKS);
  }

  /** Completing the first lease deletes its record and hands the permit to the waiting request. */
  lemma CompletionHandsOn(sys: Sys, a: Id, b: Id)
    requires a != b && a in sys.store.records && b in sys.store.records
    requires sys.store.permit == Enqueue(Take(FREE, a)) && !Closing(sys.store) && !sys.store.identityLost
    requires forall t | 0 <= t < |sys.ops| :: Terminal(sys.ops[t])
    ensures Theorems.Enabled(sys, Theorems.Completes(0, a, DISK))
    ensures var sys' := Theorems.Step(sys, Theorems.Completes(0, a, DISK));
      && 0 in sys'.store.permit.handed && sys'.asked == sys.asked && sys'.lineage == sys.lineage
      && b in sys'.store.records && sys'.store.records[b] == sys.store.records[b] && !Closing(sys'.store)
  {
    hide Land, NoteDiscarded, FreeCommitted;
    var sys1 := sys.(store := BeginCompletion(sys.store, 0, a));
    DiscardsQuietly(sys1, a);
  }

  lemma DeletesCleanly(s: Store, a: Id)
    requires !s.identityLost && s.permit.settle.None?
    ensures DeletePhysical(s, a, GOOD) == (s, Some(Deleted(a in s.records, a in s.inflight && a !in s.tombstones)))
  {
  }

  /** Only the record of `a`, and books, may have moved. */
  predicate Calm(s: Store, s': Store, a: Id) {
    && s'.permit == s.permit && s'.closeRequested == s.closeRequested && s'.unhealthy == s.unhealthy
    && (forall k | k in s.records && k != a :: k in s'.records && s'.records[k] == s.records[k])
  }

  lemma ForgettingIsCalm(s: Store, a: Id, d: Deleted)
    ensures Calm(s, FreeCommitted(Forget(s, a, d), a), a)
  {
    hide ReleaseReservation;
  }

  lemma DiscardsQuietly(sys: Sys, a: Id)
    requires !sys.store.identityLost && sys.store.permit.settle.None?
    requires forall t | 0 <= t < |sys.ops| :: Terminal(sys.ops[t])
    ensures var (sys', ok) := DiscardOwned(sys, a, DISK);
      && ok && Calm(sys.store, sys'.store, a) && sys'.asked == sys.asked && sys'.lineage == sys.lineage
  {
    hide Notify, DeletePhysical, Forget, FreeCommitted, Shrinks, Calm, Notifies, Terminal;
    var d := Deleted(a in sys.store.records, a in sys.store.inflight && a !in sys.store.tombstones);
    DiscardFixed(sys, a, DISK);
    DeletesCleanly(sys.store, a);
    DecidedIsOnlyTold(sys.(store := Forget(sys.store, a, d)), a, GOOD);
    ForgettingIsCalm(sys.store, a, d);
  }

  lemma EntryStays(sys: Sys, a: Id, b: Id)
    requires SysInv(sys) && a != b && b in sys.owners
    requires Theorems.Enabled(sys, Theorems.Completes(0, a, DISK))
    ensures var sys' := Theorems.Step(sys, Theorems.Completes(0, a, DISK)); b in sys'.owners && sys'.owners[b] == sys.owners[b]
  {
    hide SysInv, SysCore, StoreInv, AtRest, Unseen, DeletedFrom, BeginCompletion, EndCompletion, DiscardOwned, MarkUnhealthy, SameBooks, Closing;
    InvIsCore(sys);
    BeginCompletionKeeps(sys.store, 0, a);
    var st := BeginCompletion(sys.store, 0, a);
    SameBooksUnseen(sys.store, st);
    UnseenKeeps(sys, st);
    DiscardOwnedKeeps(sys.(store := st), a, DISK);
  }

  lemma LeasableIs(s: Store, id: Id, c: Consumer)
    requires !Closing(s) && id in s.records && s.records[id].consumer == c && s.records[id].status == Retrievable
    ensures Leasable(s, id, c)
  {
  }

  /** Fenced, authorized for nobody, and handed out all the same to the request that was waiting. */
  ghost predicate GrantedToNobody(sys: Sys, ticket: Ticket, c: Consumer, d: Controller, b: Id) {
    && ticket in sys.store.permit.handed && ticket in sys.asked && sys.asked[ticket] == (b, c)
    && (c, d) in sys.lineage && sys.lineage[(c, d)] == Fenced
    && b in sys.owners && sys.owners[b].owner == DriveOwned(c, d)
    && (forall consumer, controller :: !Authorized(sys, b, consumer, controller))
    && ResumeWaiter(sys, ticket, true).1.Granted?
  }

  /** For any consumer, drive and two ids, some run ends in such a state. */
  lemma UnauthorizedGrantIsReachable(c: Consumer, d: Controller, a: Id, b: Id)
    requires a != b
    ensures exists sys, ticket: Ticket :: Reaches(EmptySys(AMPLE), sys) && GrantedToNobody(sys, ticket, c, d, b)
  {
    hide Reaches, Theorems.Step, Second, ResumeWaiter, Leasable, SysInv;
    var start := EmptySys(AMPLE);
    var sys := Second(c, d, a, b);
    SecondReached(c, d, a, b);
    BothCaptured(c, d, a, b);
    OneHeldOneQueued(sys, c, d, a, b);
    ReachesStep(start, sys, Theorems.Acquires(a, c, None, true));
    var sys1 := Theorems.Step(sys, Theorems.Acquires(a, c, None, true));
    ReachesStep(start, sys1, Theorems.Acquires(b, c, Some(d), true));
    var sys2 := Theorems.Step(sys1, Theorems.Acquires(b, c, Some(d), true));
    FencingTerminal(sys2, c, d);
    ReachesStep(start, sys2, Theorems.Fences(c, d, DISKS));
    var sys3 := Theorems.Step(sys2, Theorems.Fences(c, d, DISKS));
    CompletionHandsOn(sys3, a, b);
    ReachesStep(start, sys3, Theorems.Completes(0, a, DISK));
    var sys4 := Theorems.Step(sys3, Theorems.Completes(0, a, DISK));
    Theorems.EmptyInv(AMPLE);
    ReachesInv(start, sys4);
    ReachesInv(start, sys3);
    ResumeWaiterKeeps(sys4, 0, true);
    EntryStays(sys3, a, b);
    assert Leasable(sys4.store, b, c) by { LeasableIs(sys4.store, b, c); }
    assert GrantedToNobody(sys4, 0, c, d, b);
  }
}
