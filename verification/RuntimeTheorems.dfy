/** The theorems about every run of the artifact runtime. */
module RuntimeTheorems {
  import opened Common
  import opened ReservationLedger
  import opened PermitModel
  import opened OperationModel
  import opened StoreModel
  import opened StoreHistory
  import opened RuntimeModel
  import opened RuntimeInvariants
  import opened RuntimeProofs
  import opened RuntimeSteps
  import opened RuntimeRuns

  /** One synchronous segment each; anything may interleave between two of them. */
  datatype Event =
    | Creates(owner: Owner, newId: Id)
    | Registers(t: nat, d: Disk)
    | Lands(t: nat, pdf: bool)
    | AccessorsEnd(t: nat, d: Disk)
    | CaptureStarts(t: nat, o: StageOutcome)
    | CaptureLinks(t: nat, identityHolds: bool, linked: bool, deleted: bool, close: CloseFs)
    | CaptureCommits(t: nat, identityHolds: bool, proved: bool, deleted: bool, expiresAt: int, close: CloseFs)
    | Delivers(t: nat, d: Disk)
    | JobEnds(t: nat)
    | Seals(t: nat)
    | Commits(t: nat)
    | Invalidates(t: nat, reason: Reason, d: Disk)
    | CleanupSettles(t: nat, confirmed: bool)
    | Discards(id: Id, d: Disk)
    | Fences(c: Consumer, controller: Controller, disks: nat -> Disk)
    | DiscardsLineage(c: Consumer, controller: Controller, disks: nat -> Disk, order: seq<Id>, fs: Id -> Disk)
    | Acquires(id: Id, c: Consumer, as_: Option<Controller>, identityHolds: bool)
    | Resumes(ticket: Ticket, identityHolds: bool)
    | Completes(lease: Lease, id: Id, d: Disk)
    | Closes(disks: nat -> Disk, close: CloseFs)
    | CloseSettles

  predicate CopyRuns(sys: Sys, t: nat) {
    && t < |sys.ops| && sys.ops[t].job == Capturing
    && sys.ops[t].id in sys.store.inflight
    && sys.store.inflight[sys.ops[t].id].token in sys.store.ledger.objects
  }

  function Linking(sys: Sys, e: Event): (Store, CaptureResult)
    requires e.CaptureLinks? && CopyRuns(sys, e.t)
  {
    CaptureLink(sys.store, sys.ops[e.t].id, e.identityHolds, e.linked, e.deleted)
  }

  function Committing(sys: Sys, e: Event): (Store, CaptureResult)
    requires e.CaptureCommits? && CopyRuns(sys, e.t)
  {
    CaptureCommit(sys.store, sys.ops[e.t].id, e.identityHolds, e.proved, e.deleted, e.expiresAt)
  }

  /** When the source can take the step; a listing names what it lists, and a copy is never oversized. */
  predicate Enabled(sys: Sys, e: Event) {
    match e
    case Registers(t, _) => t < |sys.ops|
    case Lands(t, _) => t < |sys.ops|
    case AccessorsEnd(t, _) => t < |sys.ops| && sys.ops[t].job == Asking
    case CaptureStarts(t, o) => t < |sys.ops| && sys.ops[t].job == Asking && Live(sys.ops[t]) && Bounded(o)
    case CaptureLinks(t, _, _, _, close) => CopyRuns(sys, t) && Lists(close.order, Linking(sys, e).0.records.Keys)
    case CaptureCommits(t, _, _, _, _, close) => CopyRuns(sys, t) && Lists(close.order, Committing(sys, e).0.records.Keys)
    case Delivers(t, _) => t < |sys.ops| && sys.ops[t].job.Captured?
    case JobEnds(t) => t < |sys.ops| && sys.ops[t].job == Ending && sys.ops[t].active > 0
    case Seals(t) => t < |sys.ops|
    case Commits(t) => t < |sys.ops| && sys.ops[t].state == Sealing && sys.ops[t].active == 0
    case Invalidates(t, _, _) => t < |sys.ops|
    case CleanupSettles(t, _) => t < |sys.ops|
    case DiscardsLineage(c, k, _, order, _) => Lists(order, ArtifactsOfLineage(sys, c, k))
    case Resumes(ticket, _) => ticket in sys.store.permit.handed && ticket in sys.asked
    case Completes(lease, id, _) =>
      !Closing(sys.store) && lease in sys.store.permit.unfinished && sys.store.permit.heldId == Some(id)
    case Closes(disks, close) => Lists(close.order, Retired(sys, disks).store.records.Keys)
    case _ => true
  }

  function Step(sys: Sys, e: Event): Sys
    requires Enabled(sys, e)
  {
    match e
    case Creates(owner, id) => Create(sys, owner, id).0
    case Registers(t, d) => RegisterDownload(sys, t, d).0
    case Lands(t, pdf) => Land(sys, t, NoteLanding(sys.ops[t], pdf))
    case AccessorsEnd(t, d) => AccessorsEndAt(sys, t, d)
    case CaptureStarts(t, o) => StartCapture(sys, t, o)
    case CaptureLinks(t, _, _, _, close) => CaptureSegment(sys, t, Linking(sys, e).0, Linking(sys, e).1, close)
    case CaptureCommits(t, _, _, _, _, close) => CaptureSegment(sys, t, Committing(sys, e).0, Committing(sys, e).1, close)
    case Delivers(t, d) => DeliverCapture(sys, t, d)
    case JobEnds(t) => Land(sys, t, EndJob(sys.ops[t]))
    case Seals(t) => Land(sys, t, Seal(sys.ops[t]))
    case Commits(t) => CommitAt(sys, t)
    case Invalidates(t, reason, d) => InvalidateOp(sys, t, reason, d)
    case CleanupSettles(t, confirmed) => CleanupSettlesAt(sys, t, confirmed)
    case Discards(id, d) => Discard(sys, id, d).0
    case Fences(c, k, disks) => Fence(sys, c, k, disks)
    case DiscardsLineage(c, k, disks, order, fs) => DiscardLineage(sys, c, k, disks, order, fs).0
    case Acquires(id, c, k, holds) => AcquireLease(sys, id, c, k, holds).0
    case Resumes(ticket, holds) => ResumeWaiter(sys, ticket, holds).0
    case Completes(lease, id, d) => CompleteLease(sys, lease, id, d)
    case Closes(disks, close) => CloseRuntime(sys, disks, close)
    case CloseSettles => StoreCloseSettles(sys)
  }

  lemma LinkingIsSegment(sys: Sys, e: Event)
    requires SysInv(sys) && e.CaptureLinks? && CopyRuns(sys, e.t)
    ensures SegmentOf(sys.store, sys.ops[e.t].id, Linking(sys, e).0, Linking(sys, e).1)
  {
    hide SysCore, AtRest, CaptureLink;
    CaptureLinkKeeps(sys.store, sys.ops[e.t].id, e.identityHolds, e.linked, e.deleted);
  }

  lemma CommittingIsSegment(sys: Sys, e: Event)
    requires SysInv(sys) && e.CaptureCommits? && CopyRuns(sys, e.t)
    ensures SegmentOf(sys.store, sys.ops[e.t].id, Committing(sys, e).0, Committing(sys, e).1)
  {
    hide SysCore, AtRest, CaptureCommit;
    CaptureCommitKeeps(sys.store, sys.ops[e.t].id, e.identityHolds, e.proved, e.deleted, e.expiresAt);
  }

  lemma LinkingQuietly(sys: Sys, e: Event)
    requires e.CaptureLinks? && CopyRuns(sys, e.t)
    ensures Quietly(sys.store, Linking(sys, e).0)
  {
    hide CaptureLink, Quietly;
    CaptureLinkQuietly(sys.store, sys.ops[e.t].id, e.identityHolds, e.linked, e.deleted);
  }

  lemma CommittingQuietly(sys: Sys, e: Event)
    requires SysInv(sys) && e.CaptureCommits? && CopyRuns(sys, e.t)
    ensures Quietly(sys.store, Committing(sys, e).0)
  {
    hide CaptureCommit, Quietly, StoreInv, Tokens, IdOk;
    TombstonesInFlight(sys.store, sys.ops[e.t].id);
    CaptureCommitQuietly(sys.store, sys.ops[e.t].id, e.identityHolds, e.proved, e.deleted, e.expiresAt);
  }

  lemma FixedLasts(sys: Sys, sys': Sys)
    requires Fixed(sys, sys')
    ensures Lasts(sys, sys') && Quietly(sys.store, sys'.store)
  {
  }

  // The step theorem, one family of events at a time.

  lemma StagingStepKeeps(sys: Sys, e: Event)
    requires SysInv(sys) && Enabled(sys, e)
    requires e.Creates? || e.Registers? || e.AccessorsEnd? || e.CaptureStarts? || e.Delivers?
    ensures SysInv(Step(sys, e)) && Lasts(sys, Step(sys, e)) && Quietly(sys.store, Step(sys, e).store)
  {
    hide SysInv, RegisterDownload, StartCapture, DeliverCapture, InvalidateOp, EndStageAt, Fixed, Lasts, Bounded;
    match e {
      case Creates(owner, id) => CreateKeeps(sys, owner, id); CreateLasts(sys, owner, id);
      case Registers(t, d) => RegisterDownloadKeeps(sys, t, d); StagingFixed(sys, t, d);
      case AccessorsEnd(t, d) => RetireThenEndStage(sys, t, CaptureFailed, d); StagingFixed(sys, t, d);
      case CaptureStarts(t, o) => StartCaptureKeeps(sys, t, o); CaptureStartLasts(sys, t, o);
      case Delivers(t, d) => DeliverCaptureKeeps(sys, t, d); DeliverFixed(sys, t, d);
    }
    if !e.Creates? && !e.CaptureStarts? { FixedLasts(sys, Step(sys, e)); }
  }

  lemma CreateLasts(sys: Sys, owner: Owner, id: Id)
    ensures Lasts(sys, Create(sys, owner, id).0) && Quietly(sys.store, Create(sys, owner, id).0.store)
  {
  }

  lemma CaptureStepKeeps(sys: Sys, e: Event)
    requires SysInv(sys) && Enabled(sys, e) && (e.CaptureLinks? || e.CaptureCommits?)
    ensures SysInv(Step(sys, e)) && Lasts(sys, Step(sys, e)) && Quietly(sys.store, Step(sys, e).store)
  {
    hide SysInv, SegmentOf, CaptureSegment, Lasts, Quietly, Lists, Linking, Committing;
    if e.CaptureLinks? {
      LinkingIsSegment(sys, e);
      CaptureSegmentKeeps(sys, e.t, Linking(sys, e).0, Linking(sys, e).1, e.close);
      LinkingQuietly(sys, e);
      SegmentLasts(sys, e.t, Linking(sys, e).0, Linking(sys, e).1, e.close);
    } else {
      CommittingIsSegment(sys, e);
      CaptureSegmentKeeps(sys, e.t, Committing(sys, e).0, Committing(sys, e).1, e.close);
      CommittingQuietly(sys, e);
      SegmentLasts(sys, e.t, Committing(sys, e).0, Committing(sys, e).1, e.close);
    }
  }

  lemma LandLasts(sys: Sys, t: nat, op: Op)
    requires t < |sys.ops|
    ensures Lasts(sys, Land(sys, t, op)) && Quietly(sys.store, Land(sys, t, op).store)
  {
  }

  lemma SmallStepKeeps(sys: Sys, e: Event)
    requires SysInv(sys) && Enabled(sys, e) && (e.Lands? || e.JobEnds? || e.Seals?)
    ensures SysInv(Step(sys, e)) && Lasts(sys, Step(sys, e)) && Quietly(sys.store, Step(sys, e).store)
  {
    hide SysInv, Land, OpInv, Lasts, EndJob, Seal, NoteLanding, Alike, Follows;
    assert OpInv(sys.ops[e.t]) by { InvIsCore(sys); TokenIsOk(sys, e.t); }
    match e {
      case Lands(t, pdf) => SmallStepsAlike(sys.ops[t], pdf); AlikeKeeps(sys, t, NoteLanding(sys.ops[t], pdf)); LandLasts(sys, t, NoteLanding(sys.ops[t], pdf));
      case JobEnds(t) => JobEndsAlike(sys.ops[t]); AlikeKeeps(sys, t, EndJob(sys.ops[t])); LandLasts(sys, t, EndJob(sys.ops[t]));
      case Seals(t) => SmallStepsAlike(sys.ops[t], false); AlikeKeeps(sys, t, Seal(sys.ops[t])); LandLasts(sys, t, Seal(sys.ops[t]));
    }
  }

  lemma CleanupLasts(sys: Sys, t: nat, confirmed: bool)
    requires t < |sys.ops|
    ensures Lasts(sys, CleanupSettlesAt(sys, t, confirmed)) && CleanupSettlesAt(sys, t, confirmed).store == sys.store
  {
    hide FinishCleanup, Land;
    LandChangesBooksOnly(sys, t, FinishCleanup(sys.ops[t], confirmed));
  }

  lemma CommitLasts(sys: Sys, t: nat)
    requires SysInv(sys) && t < |sys.ops| && sys.ops[t].state == Sealing && sys.ops[t].active == 0
    ensures Lasts(sys, CommitAt(sys, t)) && CommitAt(sys, t).store == sys.store
  {
    hide SysCore, AtRest, Commit, Land, CommitOutcome;
    var op := sys.ops[t];
    LiveIsUnfenced(sys, t);
    LandChangesBooksOnly(sys, t, Commit(op));
    LandChangesBooksOnly(sys.(owners := sys.owners[op.id := Entry(t, op.owner)]), t, Commit(op));
  }

  lemma DecisionStepKeeps(sys: Sys, e: Event)
    requires SysInv(sys) && Enabled(sys, e) && (e.Commits? || e.CleanupSettles? || e.Invalidates? || e.Discards?)
    ensures SysInv(Step(sys, e)) && Lasts(sys, Step(sys, e)) && Quietly(sys.store, Step(sys, e).store)
  {
    hide SysInv, CommitAt, CleanupSettlesAt, InvalidateOp, Discard, Fixed, Lasts, Gate, Quietly;
    ShrinksReflexive(sys.store);
    ShrinksIsQuiet(sys.store, sys.store);
    match e {
      case Commits(t) => CommitAtKeeps(sys, t); CommitLasts(sys, t);
      case CleanupSettles(t, ok) => CleanupSettlesKeeps(sys, t, ok); CleanupLasts(sys, t, ok);
      case Invalidates(t, reason, d) => InvalidateOpKeeps(sys, t, reason, d); InvalidateFixed(sys, t, reason, d); FixedLasts(sys, Step(sys, e));
      case Discards(id, d) => DiscardKeeps(sys, id, d); DiscardFixed(sys, id, d); FixedLasts(sys, Step(sys, e));
    }
  }

  lemma ControlStepKeeps(sys: Sys, e: Event)
    requires SysInv(sys) && Enabled(sys, e) && (e.Fences? || e.DiscardsLineage? || e.Closes? || e.CloseSettles?)
    ensures SysInv(Step(sys, e)) && Lasts(sys, Step(sys, e)) && Quietly(sys.store, Step(sys, e).store)
  {
    hide SysInv, Fence, DiscardLineage, CloseRuntime, StoreCloseSettles, Lasts, Lists, Retired, ArtifactsOfLineage, Shrinks, Quietly;
    match e {
      case Fences(c, k, disks) => FenceKeeps(sys, c, k, disks); FenceLasts(sys, c, k, disks); ShrinksIsQuiet(sys.store, Step(sys, e).store);
      case DiscardsLineage(c, k, disks, order, fs) =>
        DiscardLineageKeeps(sys, c, k, disks, order, fs);
        DiscardLineageLasts(sys, c, k, disks, order, fs);
        ShrinksIsQuiet(sys.store, Step(sys, e).store);
      case Closes(disks, close) => CloseRuntimeKeeps(sys, disks, close); CloseLasts(sys, disks, close); ShrinksIsQuiet(sys.store, Step(sys, e).store);
      case CloseSettles => StoreCloseSettlesKeeps(sys); CloseSettlesFixed(sys); FixedLasts(sys, Step(sys, e));
    }
  }

  lemma LeaseStepKeeps(sys: Sys, e: Event)
    requires SysInv(sys) && Enabled(sys, e) && (e.Acquires? || e.Resumes?)
    ensures SysInv(Step(sys, e)) && Lasts(sys, Step(sys, e)) && Onward(sys.store, Step(sys, e).store)
  {
    hide SysInv, AcquireLease, ResumeWaiter, Lasts, Authorized, Onward;
    match e {
      case Acquires(id, c, k, holds) => AcquireLeaseKeeps(sys, id, c, k, holds);
      case Resumes(ticket, holds) => ResumeWaiterKeeps(sys, ticket, holds);
    }
  }

  lemma CompletionStepKeeps(sys: Sys, e: Event)
    requires SysInv(sys) && Enabled(sys, e) && e.Completes?
    ensures SysInv(Step(sys, e)) && Lasts(sys, Step(sys, e)) && Quietly(sys.store, Step(sys, e).store)
  {
    hide SysInv, CompleteLease, Lasts, Fixed, Quietly;
    CompleteLeaseKeeps(sys, e.lease, e.id, e.d);
    CompletionFixed(sys, e.lease, e.id, e.d);
    FixedLasts(sys, Step(sys, e));
  }

  /**
   Every event keeps the three ledgers in agreement, undoes no fence, no close and no result, lets
   nobody new at what a fence covers, and returns no record; only a lease request makes one consuming.
   */
  lemma StepKeepsInv(sys: Sys, e: Event)
    requires SysInv(sys) && Enabled(sys, e)
    ensures SysInv(Step(sys, e)) && Lasts(sys, Step(sys, e)) && Onward(sys.store, Step(sys, e).store)
    ensures e.Acquires? || e.Resumes? || Quietly(sys.store, Step(sys, e).store)
  {
    hide *;
    if !e.Acquires? && !e.Resumes? { QuietStepKeeps(sys, e); QuietIsOnward(sys.store, Step(sys, e).store); }
    else { LeaseStepKeeps(sys, e); }
  }

  lemma QuietStepKeeps(sys: Sys, e: Event)
    requires SysInv(sys) && Enabled(sys, e) && !e.Acquires? && !e.Resumes?
    ensures SysInv(Step(sys, e)) && Lasts(sys, Step(sys, e)) && Quietly(sys.store, Step(sys, e).store)
  {
    hide *;
    match e {
      case Creates(_, _) => StagingStepKeeps(sys, e);
      case Registers(_, _) => StagingStepKeeps(sys, e);
      case Lands(_, _) => SmallStepKeeps(sys, e);
      case AccessorsEnd(_, _) => StagingStepKeeps(sys, e);
      case CaptureStarts(_, _) => StagingStepKeeps(sys, e);
      case CaptureLinks(_, _, _, _, _) => CaptureStepKeeps(sys, e);
      case CaptureCommits(_, _, _, _, _, _) => CaptureStepKeeps(sys, e);
      case Delivers(_, _) => StagingStepKeeps(sys, e);
      case JobEnds(_) => SmallStepKeeps(sys, e);
      case Seals(_) => SmallStepKeeps(sys, e);
      case Commits(_) => DecisionStepKeeps(sys, e);
      case Invalidates(_, _, _) => DecisionStepKeeps(sys, e);
      case CleanupSettles(_, _) => DecisionStepKeeps(sys, e);
      case Discards(_, _) => DecisionStepKeeps(sys, e);
      case Fences(_, _, _) => ControlStepKeeps(sys, e);
      case DiscardsLineage(_, _, _, _, _) => ControlStepKeeps(sys, e);
      case Completes(_, _, _) => CompletionStepKeeps(sys, e);
      case Closes(_, _) => ControlStepKeeps(sys, e);
      case CloseSettles => ControlStepKeeps(sys, e);
    }
  }

  function Run(sys: Sys, es: seq<Event>): Sys
    decreases |es|
  {
    if es == [] then sys
    else Run(if Enabled(sys, es[0]) then Step(sys, es[0]) else sys, es[1..])
  }

  lemma LastsTransitive(a: Sys, b: Sys, c: Sys)
    requires Lasts(a, b) && Lasts(b, c)
    ensures Lasts(a, c)
  {
  }

  /** Over every run: whatever a step does not undo, no run does. */
  lemma {:induction false} RunKeepsInv(sys: Sys, es: seq<Event>)
    requires SysInv(sys)
    ensures SysInv(Run(sys, es)) && Lasts(sys, Run(sys, es)) && Kept(sys.store, Run(sys, es).store)
    decreases |es|
  {
    hide SysInv, SysCore, Enabled, Step, Lasts, Onward, Quietly, Kept, StoreInv, AtRest;
    LastsReflexive(sys);
    KeptReflexive(sys.store);
    if es != [] {
      var sys1 := if Enabled(sys, es[0]) then Step(sys, es[0]) else sys;
      if Enabled(sys, es[0]) {
        StepKeepsInv(sys, es[0]);
        InvIsCore(sys);
        AtRestIsStoreInv(sys.store);
        OnwardIsKept(sys.store, sys1.store);
      }
      RunKeepsInv(sys1, es[1..]);
      LastsTransitive(sys, sys1, Run(sys1, es[1..]));
      KeptTransitive(sys.store, sys1.store, Run(sys1, es[1..]).store);
    }
  }

  /** A consuming record is never available again, however the run goes on, while its id keeps its reservation. */
  lemma ConsumingIsForEver(sys: Sys, es: seq<Event>, id: Id)
    requires SysInv(sys) && id in sys.store.records && sys.store.records[id].status == Consuming
    ensures id in sys.store.ledger.live
    ensures var s' := Run(sys, es).store;
      id in s'.records ==>
        && id in s'.ledger.live
        && (s'.ledger.live[id] == sys.store.ledger.live[id] ==> s'.records[id].status == Consuming)
  {
    hide SysCore, AtRest, Run, Kept;
    RunKeepsInv(sys, es);
    RecordHasClaim(sys, id);
    RecordHasClaim(Run(sys, es), id);
    InvIsCore(sys);
    AtRestIsStoreInv(sys.store);
    var s' := Run(sys, es).store;
    if id in s'.records && s'.ledger.live[id] == sys.store.ledger.live[id] { KeptConsuming(sys.store, s', id); }
  }

  lemma RecordHasClaim(sys: Sys, id: Id)
    requires SysInv(sys)
    ensures id in sys.store.records ==> id in sys.store.ledger.live
  {
    hide Tokens, IdOk, Conserved, CloseOnce, Permitted;
    assert RecordPaid(sys.store, id);
  }

  lemma EmptyInv(limits: Limits)
    ensures SysInv(EmptySys(limits))
  {
    EmptyStoreAtRest(limits);
  }

  // -- what the invariant says --------------------------------------------------------------------

  /**
   In every reachable state an owner entry belongs to a committed operation that still holds that id's
   reservation, and, unless a clean close swept it, to a record still in the store under the same
   consumer; an undecided operation with a staged artifact has its record too.
   */
  lemma LedgersAgree(limits: Limits, es: seq<Event>, id: Id)
    ensures var sys := Run(EmptySys(limits), es);
      id in sys.owners ==>
        && var t := sys.owners[id].token;
        && t < |sys.ops| && sys.ops[t].id == id && sys.ops[t].state == Committed(Available) && !sys.ops[t].released
        && sys.ops[t].owner == sys.owners[id].owner
        && id in sys.reserved && sys.reserved[id] == t
        && (!SweptClean(sys.store) ==> id in sys.store.records && sys.store.records[id].consumer == sys.owners[id].owner.consumer)
  {
    hide SysCore, AtRest, Run;
    EmptyInv(limits);
    RunKeepsInv(EmptySys(limits), es);
    var sys := Run(EmptySys(limits), es);
    if id in sys.owners { HeldById(sys, id); OwnerEntry(sys, id); }
  }

  lemma OwnerEntry(sys: Sys, id: Id)
    requires id in sys.owners && id in sys.reserved && sys.reserved[id] < |sys.ops|
    requires var op := sys.ops[sys.reserved[id]]; op.id == id && !op.released && Agrees(sys, sys.reserved[id], op)
    ensures var t := sys.owners[id].token; var op := sys.ops[sys.reserved[id]];
      && t == sys.reserved[id] && op.state == Committed(Available) && op.owner == sys.owners[id].owner
      && (!SweptClean(sys.store) ==> id in sys.store.records && sys.store.records[id].consumer == op.owner.consumer)
  {
  }

  /** No id is held by two unreleased operations, and whoever holds one holds its reservation. */
  lemma NoIdIsSharedInAnyRun(limits: Limits, es: seq<Event>, j: nat, k: nat)
    ensures var sys := Run(EmptySys(limits), es);
      j < |sys.ops| && k < |sys.ops| && !sys.ops[j].released && !sys.ops[k].released && sys.ops[j].id == sys.ops[k].id ==> j == k
  {
    hide AtRest, StoreInv, Run;
    EmptyInv(limits);
    RunKeepsInv(EmptySys(limits), es);
    var sys := Run(EmptySys(limits), es);
    if j < |sys.ops| && k < |sys.ops| { assert TokenOk(sys, j) && TokenOk(sys, k); }
  }

  /** An undecided operation with a staged artifact has its store record, of its own consumer. */
  lemma StagedHasRecord(limits: Limits, es: seq<Event>, t: nat)
    ensures var sys := Run(EmptySys(limits), es);
      t < |sys.ops| && Live(sys.ops[t]) && sys.ops[t].provisional ==>
        sys.ops[t].id in sys.store.records && sys.store.records[sys.ops[t].id].consumer == sys.ops[t].owner.consumer
  {
    hide AtRest, StoreInv, Run;
    EmptyInv(limits);
    RunKeepsInv(EmptySys(limits), es);
    var sys := Run(EmptySys(limits), es);
    if t < |sys.ops| { assert TokenOk(sys, t); }
  }

  /** Nothing in the store is nobody's: every record and every running copy has an unreleased operation. */
  lemma NothingIsOrphaned(limits: Limits, es: seq<Event>, id: Id)
    ensures var sys := Run(EmptySys(limits), es);
      id in sys.store.records || id in sys.store.inflight ==>
        id in sys.reserved && sys.reserved[id] < |sys.ops| && sys.ops[sys.reserved[id]].id == id && !sys.ops[sys.reserved[id]].released
  {
    hide SysCore, AtRest, Run;
    EmptyInv(limits);
    RunKeepsInv(EmptySys(limits), es);
    var sys := Run(EmptySys(limits), es);
    if id in sys.store.records || id in sys.store.inflight { HeldById(sys, id); }
  }

  /**
   After a fence, however the run goes on: every operation of the lineage is terminal, none can be
   created, and every lease request for one of its artifacts is refused.
   */
  lemma FenceIsForEver(sys: Sys, c: Consumer, d: Controller, disks: nat -> Disk, es: seq<Event>)
    requires SysInv(sys)
    ensures var sys' := Run(Fence(sys, c, d, disks), es);
      && (forall t | 0 <= t < |sys'.ops| && OfLineage(sys'.ops[t].owner, c, d) :: Terminal(sys'.ops[t]))
      && (forall id :: !Create(sys', DriveOwned(c, d), id).1)
      && (forall id, consumer, controller, holds | id in sys'.owners && OfLineage(sys'.owners[id].owner, c, d) ::
            AcquireLease(sys', id, consumer, controller, holds) == (sys', NoLease))
  {
    hide SysCore, AtRest, Run, Fence, LeaseEnter;
    FenceKeeps(sys, c, d, disks);
    var sys1 := Fence(sys, c, d, disks);
    RunKeepsInv(sys1, es);
    var sys' := Run(sys1, es);
    assert (c, d) in sys1.lineage;
    assert sys'.lineage[(c, d)] == Fenced;
    forall t | 0 <= t < |sys'.ops| && OfLineage(sys'.ops[t].owner, c, d) ensures Terminal(sys'.ops[t]) {
      if Live(sys'.ops[t]) { LiveIsUnfenced(sys', t); }
    }
  }

  /** The record of `id` was handed to a response between these two states. */
  predicate Consumed(s: Store, s': Store, id: Id) {
    && id in s'.records && s'.records[id].status == Consuming
    && !(id in s.records && s.records[id].status == Consuming)
  }

  lemma QuietConsumesNothing(s: Store, s': Store, id: Id)
    requires Quietly(s, s')
    ensures !Consumed(s, s', id)
  {
  }

  lemma LeaseConsumesItsOwn(s: Store, s': Store, wanted: Id, r: LeaseResult, c: Consumer, id: Id)
    requires OnlyLease(s, s', wanted, r) && (r.Granted? ==> Leasable(s, wanted, c))
    ensures Consumed(s, s', id) <==> r.Granted? && id == wanted
  {
  }

  /** What it takes for an event to hand out the record of `id`: a fresh request passes both ledgers' tests, a waiting one the store's alone. */
  predicate Hands(sys: Sys, e: Event, id: Id)
    requires Enabled(sys, e)
  {
    || (e.Acquires? && e.id == id && e.identityHolds && Authorized(sys, id, e.c, e.as_) && Leasable(sys.store, id, e.c) && !sys.store.permit.busy)
    || (e.Resumes? && sys.asked[e.ticket].0 == id && e.identityHolds && Leasable(sys.store, id, sys.asked[e.ticket].1))
  }

  lemma ConsumesIsExact(sys: Sys, e: Event, id: Id)
    requires SysInv(sys) && Enabled(sys, e)
    ensures Consumed(sys.store, Step(sys, e).store, id) <==> Hands(sys, e, id)
  {
    hide SysInv, AcquireLease, ResumeWaiter, Lasts, Authorized, Onward, Quietly, Leasable, OnlyLease, Consumed;
    if e.Acquires? {
      AcquireLeaseKeeps(sys, e.id, e.c, e.as_, e.identityHolds);
      var (sys', r) := AcquireLease(sys, e.id, e.c, e.as_, e.identityHolds);
      LeaseConsumesItsOwn(sys.store, sys'.store, e.id, r, e.c, id);
    } else if e.Resumes? {
      ResumeWaiterKeeps(sys, e.ticket, e.identityHolds);
      var (sys', r) := ResumeWaiter(sys, e.ticket, e.identityHolds);
      LeaseConsumesItsOwn(sys.store, sys'.store, sys.asked[e.ticket].0, r, sys.asked[e.ticket].1, id);
    } else {
      hide Step;
      StepKeepsInv(sys, e);
      QuietConsumesNothing(sys.store, Step(sys, e).store, id);
    }
  }

  /** What a run after a fence leaves of the fenced lineage's requests and entries. */
  lemma FenceLastsOverRuns(sys: Sys, c: Consumer, d: Controller, disks: nat -> Disk, es: seq<Event>, id: Id)
    requires SysInv(sys)
    ensures var sys1 := Fence(sys, c, d, disks);
      var sys' := Run(sys1, es);
      && SysInv(sys')
      && (id in sys'.owners && OfLineage(sys'.owners[id].owner, c, d) ==>
            && (forall consumer, controller :: !Authorized(sys', id, consumer, controller))
            && (forall t | t in sys'.asked && sys'.asked[t].0 == id :: t in sys1.asked && sys1.asked[t] == sys'.asked[t]))
  {
    hide SysInv, Run, Fence, Kept;
    FenceKeeps(sys, c, d, disks);
    var sys1 := Fence(sys, c, d, disks);
    RunKeepsInv(sys1, es);
    var sys' := Run(sys1, es);
    if id in sys'.owners && OfLineage(sys'.owners[id].owner, c, d) {
      assert FencedEntry(sys1, sys'.owners, id);
      assert (c, d) in sys1.lineage && sys'.lineage[(c, d)] == Fenced;
    }
  }

  /**
   After a fence, however the run goes on: nobody is authorized for an artifact of the lineage, and yet
   one is handed out exactly to a request that was queued before the fence and passes the store's test.
   */
  lemma FencedLeaseIsExact(sys: Sys, c: Consumer, d: Controller, disks: nat -> Disk, es: seq<Event>, e: Event, id: Id)
    requires SysInv(sys)
    ensures var sys1 := Fence(sys, c, d, disks);
      var sys' := Run(sys1, es);
      Enabled(sys', e) && id in sys'.owners && OfLineage(sys'.owners[id].owner, c, d) ==>
        && (forall consumer, controller :: !Authorized(sys', id, consumer, controller))
        && (Consumed(sys'.store, Step(sys', e).store, id) <==>
              && e.Resumes? && e.identityHolds && Leasable(sys'.store, id, sys'.asked[e.ticket].1)
              && e.ticket in sys1.asked && sys1.asked[e.ticket] == sys'.asked[e.ticket] && sys1.asked[e.ticket].0 == id)
  {
    hide SysInv, Run, Fence, Leasable, Consumed, Authorized, Step, OfLineage;
    FenceLastsOverRuns(sys, c, d, disks, es, id);
    var sys' := Run(Fence(sys, c, d, disks), es);
    if Enabled(sys', e) { ConsumesIsExact(sys', e, id); }
  }

  /** After close, however the run goes on: nothing undecided, nothing created, and one result for everybody. */
  lemma CloseIsForEver(sys: Sys, es: seq<Event>)
    requires SysInv(sys) && sys.closed
    ensures var sys' := Run(sys, es);
      && (forall t | 0 <= t < |sys'.ops| :: Terminal(sys'.ops[t]))
      && (forall owner, id :: !Create(sys', owner, id).1)
      && (sys.store.result.Some? ==> sys'.store.result == sys.store.result)
  {
    hide SysCore, AtRest, Run;
    RunKeepsInv(sys, es);
    var sys' := Run(sys, es);
    forall t | 0 <= t < |sys'.ops| ensures Terminal(sys'.ops[t]) {
      ClosedIsTerminal(sys', t);
    }
  }

  /** In every reachable state: at most one live lease, and a consuming record is exactly the one it holds. */
  lemma OneLease(limits: Limits, es: seq<Event>)
    ensures var s := Run(EmptySys(limits), es).store;
      && |s.permit.unfinished| <= 1
      && (s.permit.unfinished != {} ==> !Closing(s))
      && (!Closing(s) ==> forall id | id in s.records :: s.records[id].status == Consuming <==> s.permit.heldId == Some(id))
      && (!s.permit.busy ==> s.permit.waiters == [])
      && (forall i, j | 0 <= i < j < |s.permit.answered| :: s.permit.answered[i].0 != s.permit.answered[j].0)
  {
    hide SysCore, Paid, Run;
    EmptyInv(limits);
    RunKeepsInv(EmptySys(limits), es);
  }

  /**
   First come, first served: in every reachable state the tickets taken so far were answered in the
   order they were taken, or wait in that order; a healthy open store refused none of them, and a
   permit somebody waits for is held, or handed to the one who will run next.
   */
  lemma FirstComeFirstServed(limits: Limits, es: seq<Event>)
    ensures var s := Run(EmptySys(limits), es).store; var p := s.permit;
      && |p.answered| + |p.waiters| == p.nextTicket
      && (forall k | 0 <= k < |p.answered| :: p.answered[k].0 == k)
      && (forall k | 0 <= k < |p.waiters| :: p.waiters[k] == |p.answered| + k)
      && (!Closing(s) ==> forall k | 0 <= k < |p.answered| :: p.answered[k].1)
      && (p.waiters != [] ==> !Closing(s) && (p.unfinished != {} || |p.handed| == 1))
  {
    hide SysCore, Paid, Run;
    EmptyInv(limits);
    RunKeepsInv(EmptySys(limits), es);
  }

  /** A capture that the source would resume is never stuck in the model. */
  lemma CopyCanRun(sys: Sys, t: nat)
    requires SysInv(sys) && t < |sys.ops| && sys.ops[t].job == Capturing
    ensures CopyRuns(sys, t)
  {
    hide SysCore, AtRest, StoreInv;
    CapturingIsUnreleased(sys, t);
    TokenIsOk(sys, t);
    NotCapturing(sys, t);
    CoreHasStore(sys);
    TombstonesInFlight(sys.store, sys.ops[t].id);
  }
}
