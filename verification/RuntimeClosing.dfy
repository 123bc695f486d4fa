/** The close of the runtime: who is told, that no close is ever owed, and what it leaves of each operation. */
module RuntimeClosing {
  import opened Common
  import opened ReservationLedger
  import opened PermitModel
  import opened OperationModel
  import opened StoreModel
  import opened StoreHistory
  import opened RuntimeModel
  import opened RuntimeInvariants
  import opened RuntimeProofs
  import opened RuntimeSteps
  import opened RuntimeRuns
  import opened RuntimeOutcomes
  import Theorems = RuntimeTheorems

  type Event = Theorems.Event

  // -- who is told ----------------------------------------------------------------------------------

  /** The operation of a swept record, still in the runtime's map. */
  predicate Swept(sys: Sys, t: nat, ids: seq<Id>)
    requires t < |sys.ops|
  {
    t in sys.tracked && sys.ops[t].id in ids
  }

  /** Exactly the operations of the swept records heard of their deletion, each once. */
  ghost predicate SweptTold(sys: Sys, sys': Sys, ids: seq<Id>) {
    && |sys'.ops| == |sys.ops| && sys'.store == sys.store
    && sys'.tracked <= sys.tracked && sys'.snapshot == sys.snapshot && sys'.settled == sys.settled
    && (forall t | 0 <= t < |sys.ops| :: sys'.ops[t] == if Swept(sys, t, ids) then NoteDiscarded(sys.ops[t], true, Clean) else sys.ops[t])
  }

  lemma TrackedIsHeld(sys: Sys, t: nat)
    requires SysInv(sys) && t in sys.tracked
    ensures t < |sys.ops| && !sys.ops[t].released && sys.ops[t].id in sys.reserved && sys.reserved[sys.ops[t].id] == t
  {
    hide StoreInv, AtRest, OpInv;
    assert TokenOk(sys, t);
  }

  lemma HeldIsItself(sys: Sys, id: Id)
    requires SysInv(sys) && id in sys.reserved
    ensures sys.reserved[id] < |sys.ops| && sys.ops[sys.reserved[id]].id == id
  {
    hide StoreInv, AtRest, TokenOk;
    assert IdOk(sys, id);
  }

  lemma NoteKeepsId(op: Op, closeOwned: bool, a: Answer)
    requires Terminal(op)
    ensures NoteDiscarded(op, closeOwned, a).id == op.id
  {
  }

  lemma LandingTracks(sys: Sys, t: nat, op: Op)
    requires t < |sys.ops|
    ensures var sys' := Land(sys, t, op);
      sys'.ops == sys.ops[t := op] && sys'.tracked <= sys.tracked && sys.tracked - {t} <= sys'.tracked
  {
  }

  lemma OnlyHolderIsSwept(sys: Sys, id: Id, t: nat)
    requires SysInv(sys) && t < |sys.ops| && Swept(sys, t, [id])
    ensures id in sys.reserved && sys.reserved[id] == t
  {
    hide SysInv;
    TrackedIsHeld(sys, t);
  }

  lemma NotifyLands(sys: Sys, id: Id)
    requires id in sys.reserved && sys.reserved[id] < |sys.ops| && Terminal(sys.ops[sys.reserved[id]])
    ensures Notify(sys, id, true, Fs(false, false)) ==
      if sys.reserved[id] in sys.tracked then Land(sys, sys.reserved[id], NoteDiscarded(sys.ops[sys.reserved[id]], true, Clean)) else sys
  {
    hide Land, NoteDiscarded, QuietDiscard, Terminal;
  }

  lemma UnheldIsNotTold(sys: Sys, id: Id)
    requires id !in sys.reserved
    ensures Notify(sys, id, true, Fs(false, false)) == sys
  {
    hide Land, NoteDiscarded, QuietDiscard;
  }

  lemma NotifyOneDoes(sys: Sys, id: Id)
    requires SysInv(sys) && sys.closed
    ensures var sys' := Notify(sys, id, true, Fs(false, false));
      && SweptTold(sys, sys', [id])
      && (forall t | t in sys.tracked && t < |sys.ops| && sys.ops[t].id != id :: t in sys'.tracked)
  {
    hide SysInv, Land, Notify, NoteDiscarded, Swept;
    forall t: nat | t < |sys.ops| && Swept(sys, t, [id]) ensures id in sys.reserved && sys.reserved[id] == t {
      OnlyHolderIsSwept(sys, id, t);
    }
    if id in sys.reserved {
      var t := sys.reserved[id];
      HeldIsItself(sys, id);
      InvIsCore(sys);
      ClosedIsTerminal(sys, t);
      NotifyLands(sys, id);
      LandingTracks(sys, t, NoteDiscarded(sys.ops[t], true, Clean));
      LandChangesBooksOnly(sys, t, NoteDiscarded(sys.ops[t], true, Clean));
      assert Swept(sys, t, [id]) <==> t in sys.tracked by { SweptIs(sys, t, id); }
    } else {
      UnheldIsNotTold(sys, id);
    }
  }

  lemma SweptIs(sys: Sys, t: nat, id: Id)
    requires t < |sys.ops|
    ensures Swept(sys, t, [id]) <==> t in sys.tracked && sys.ops[t].id == id
  {
  }

  lemma {:induction false} NotifySweptDoes(sys: Sys, ids: seq<Id>)
    requires SysInv(sys) && sys.closed && (ids == [] || SweptClean(sys.store))
    requires forall i, j | 0 <= i < j < |ids| :: ids[i] != ids[j]
    ensures SweptTold(sys, NotifySwept(sys, ids), ids)
    decreases |ids|
  {
    hide SysInv, Notify, NoteDiscarded, SweptTold, SweptClean;
    if ids == [] {
      NobodyTold(sys);
    } else {
      var sys1 := Notify(sys, ids[0], true, Fs(false, false));
      NotifyOneDoes(sys, ids[0]);
      NotifyClosedKeeps(sys, ids[0]);
      NotifySweptDoes(sys1, ids[1..]);
      forall t: nat | t < |sys.ops| ensures Terminal(sys.ops[t]) { InvIsCore(sys); ClosedIsTerminal(sys, t); }
      ToldTogether(sys, sys1, NotifySwept(sys1, ids[1..]), ids);
    }
  }

  lemma NobodyTold(sys: Sys)
    ensures SweptTold(sys, sys, []) && NotifySwept(sys, []) == sys
  {
  }

  lemma ToldTogether(sys: Sys, sys1: Sys, sys2: Sys, ids: seq<Id>)
    requires ids != [] && (forall i, j | 0 <= i < j < |ids| :: ids[i] != ids[j])
    requires SweptTold(sys, sys1, [ids[0]]) && SweptTold(sys1, sys2, ids[1..])
    requires forall t | t in sys.tracked && t < |sys.ops| && sys.ops[t].id != ids[0] :: t in sys1.tracked
    requires forall t: nat | t < |sys.ops| :: Terminal(sys.ops[t])
    ensures SweptTold(sys, sys2, ids)
  {
    hide NoteDiscarded, Terminal;
    forall t: nat | t < |sys.ops|
      ensures sys2.ops[t] == if Swept(sys, t, ids) then NoteDiscarded(sys.ops[t], true, Clean) else sys.ops[t]
    {
      NoteKeepsId(sys.ops[t], true, Clean);
      assert sys1.ops[t].id == sys.ops[t].id;
      assert sys.ops[t].id in ids <==> sys.ops[t].id == ids[0] || sys.ops[t].id in ids[1..];
      assert ids[0] !in ids[1..];
    }
  }

  lemma {:induction false} SettleBelowDoes(sys: Sys, n: nat, failed: bool)
    ensures var sys' := SettleBelow(sys, n, failed);
      && |sys'.ops| == |sys.ops| && sys'.store == sys.store && sys'.closed == sys.closed
      && sys'.snapshot == sys.snapshot && sys'.settled == sys.settled && sys'.tracked <= sys.tracked
      && (forall t | 0 <= t < |sys.ops| :: sys'.ops[t] == if t < n && t in sys.snapshot then SettleStoreClose(sys.ops[t], failed) else sys.ops[t])
    decreases n
  {
    hide Land, SettleStoreClose;
    if n > 0 {
      SettleBelowDoes(sys, n - 1, failed);
      var sys1 := SettleBelow(sys, n - 1, failed);
      if n - 1 < |sys1.ops| {
        LandingTracks(sys1, n - 1, SettleStoreClose(sys1.ops[n - 1], failed));
        LandChangesBooksOnly(sys1, n - 1, SettleStoreClose(sys1.ops[n - 1], failed));
      }
    }
  }

  /** The one result reaches every operation the close had tracked, and nobody else, once. */
  lemma CloseSettlesTells(sys: Sys)
    requires !sys.settled && sys.store.result.Some?
    ensures var sys' := StoreCloseSettles(sys);
      && sys'.settled && sys'.store == sys.store && sys'.closed == sys.closed && |sys'.ops| == |sys.ops| && sys'.snapshot == sys.snapshot && sys'.tracked <= sys.tracked
      && (forall t | 0 <= t < |sys.ops| ::
            sys'.ops[t] == if t in sys.snapshot then SettleStoreClose(sys.ops[t], sys.store.result == Some(FailedClose)) else sys.ops[t])
  {
    hide SettleStoreClose, SettleBelow;
    SettleBelowDoes(sys.(settled := true), |sys.ops|, sys.store.result == Some(FailedClose));
  }

  // -- over every run -------------------------------------------------------------------------------

  /** Committed, and still waiting for its artifact to go. */
  predicate StillWaits(op: Op) { op.state == Committed(Available) && op.waitingForArtifact }

  /**
   No close is ever owed: the last running copy finishes what was asked. A clean one has told every
   operation whose record it swept, and its result, once given out, has reached everyone it should.
   */
  ghost predicate ClosedWell(sys: Sys) {
    && (sys.closed ==> sys.store.closeRequested)
    && (sys.store.closeRequested && sys.store.inflight == map[] ==> sys.store.result.Some?)
    && (sys.settled ==> sys.store.result.Some?)
    && (SweptClean(sys.store) ==> forall t | t in sys.tracked && t < |sys.ops| :: !StillWaits(sys.ops[t]))
    && (sys.settled ==> forall t | t in sys.snapshot && t < |sys.ops| :: sys.ops[t].storeClose.Some?)
  }

  /** What happens to a decided operation after the store is disposed of. */
  predicate Later(op: Op, op': Op) {
    && op'.state == op.state
    && (StillWaits(op') ==> StillWaits(op))
    && (op.storeClose.Some? ==> op'.storeClose.Some?)
  }

  ghost predicate AllLater(sys: Sys, sys': Sys) {
    && |sys'.ops| == |sys.ops| && (forall t | 0 <= t < |sys.ops| :: Later(sys.ops[t], sys'.ops[t]))
    && sys'.tracked <= sys.tracked && sys'.snapshot == sys.snapshot && sys'.settled == sys.settled
    && sys'.store.result == sys.store.result && sys'.store.closeRequested == sys.store.closeRequested && sys'.closed == sys.closed
  }

  lemma LaterIsClosedWell(sys: Sys, sys': Sys)
    requires ClosedWell(sys) && sys.store.result.Some? && AllLater(sys, sys')
    ensures ClosedWell(sys')
  {
    hide StillWaits;
  }

  lemma NothingLater(sys: Sys)
    ensures AllLater(sys, sys)
  {
  }

  lemma OneLater(sys: Sys, t: nat, op: Op)
    requires t < |sys.ops| && Later(sys.ops[t], op)
    ensures AllLater(sys, Land(sys, t, op)) && AllLater(sys, sys.(ops := sys.ops[t := op]))
  {
    hide Later;
    forall k | 0 <= k < |sys.ops| ensures Later(sys.ops[k], sys.ops[k]) { LaterReflexive(sys.ops[k]); }
    LandingTracks(sys, t, op);
    LandChangesBooksOnly(sys, t, op);
  }

  lemma LaterReflexive(op: Op)
    ensures Later(op, op)
  {
  }

  /** After the store is disposed of nothing is undecided and no copy runs. */
  lemma DisposedFacts(sys: Sys)
    requires SysInv(sys) && sys.store.result.Some?
    ensures sys.store.closeRequested && sys.closed && sys.store.inflight == map[] && sys.store.disposed
    ensures forall t: nat | t < |sys.ops| :: Terminal(sys.ops[t]) && OpInv(sys.ops[t])
  {
    hide OpInv, Paid, Permitted, IdOk, Agrees;
    forall t: nat | t < |sys.ops| ensures Terminal(sys.ops[t]) && OpInv(sys.ops[t]) { assert TokenOk(sys, t); }
  }

  lemma JobLater(op: Op, a: Answer)
    requires OpInv(op) && Terminal(op)
    ensures op.job == Asking ==> Later(op, EndStage(op))
    ensures op.job.Captured? ==> Later(op, EndStage(op)) && Later(op, EndStage(Answered(op, a)))
    ensures op.job == Ending && op.active > 0 ==> Later(op, EndJob(op))
  {
  }

  lemma DecidedLater(op: Op, confirmed: bool, pdf: bool)
    requires OpInv(op) && Terminal(op)
    ensures Later(op, FinishCleanup(op, confirmed)) && NoteLanding(op, pdf) == op && Seal(op) == op && Register(op, Clean) == (op, false)
  {
  }

  lemma DisposedRefuses(sys: Sys, id: Id, d: Disk)
    requires sys.store.closeRequested
    ensures Discard(sys, id, d) == (sys, Refused)
  {
    hide DiscardOwned;
  }

  lemma {:induction false} DisposedRefusesAll(sys: Sys, ids: seq<Id>, fs: Id -> Disk)
    requires sys.store.closeRequested
    ensures DiscardEach(sys, ids, fs).0 == sys && Failed !in DiscardEach(sys, ids, fs).1
    decreases |ids|
  {
    hide Discard;
    if ids != [] {
      DisposedRefuses(sys, ids[0], fs(ids[0]));
      DisposedRefusesAll(sys, ids[1..], fs);
    }
  }

  lemma StagingLater(sys: Sys, e: Event)
    requires SysInv(sys) && Theorems.Enabled(sys, e) && sys.store.result.Some?
    requires e.Creates? || e.Registers? || e.AccessorsEnd? || e.CaptureStarts? || e.Delivers?
    ensures AllLater(sys, Theorems.Step(sys, e))
  {
    hide SysInv, OpInv, Later, AllLater, InvalidateOp, EndStage, Answered, Discard, Register, CaptureBegin;
    DisposedFacts(sys);
    NothingLater(sys);
    match e {
      case Creates(_, _) =>
      case Registers(t, _) => DecidedLater(sys.ops[t], false, false); LaterReflexive(sys.ops[t]); OneLater(sys, t, sys.ops[t]);
      case AccessorsEnd(t, d) => InvalidatedAlready(sys, t, CaptureFailed, d); JobLater(sys.ops[t], Refused); OneLater(sys, t, EndStage(sys.ops[t]));
      case CaptureStarts(_, _) =>
      case Delivers(t, d) =>
        JobLater(sys.ops[t], Refused);
        DisposedRefuses(sys, sys.ops[t].id, d);
        OneLater(sys, t, EndStage(sys.ops[t]));
        OneLater(sys, t, EndStage(Answered(sys.ops[t], Refused)));
    }
  }

  lemma DecidingLater(sys: Sys, e: Event)
    requires SysInv(sys) && Theorems.Enabled(sys, e) && sys.store.result.Some?
    requires e.Lands? || e.JobEnds? || e.Seals? || e.Commits? || e.Invalidates? || e.CleanupSettles? || e.Discards?
    ensures AllLater(sys, Theorems.Step(sys, e))
  {
    hide SysInv, OpInv, Later, AllLater, InvalidateOp, Discard, NoteLanding, Seal, EndJob, FinishCleanup, Land;
    DisposedFacts(sys);
    NothingLater(sys);
    match e {
      case Lands(t, pdf) => DecidedLater(sys.ops[t], false, pdf); LaterReflexive(sys.ops[t]); OneLater(sys, t, sys.ops[t]);
      case JobEnds(t) => JobLater(sys.ops[t], Refused); OneLater(sys, t, EndJob(sys.ops[t]));
      case Seals(t) => DecidedLater(sys.ops[t], false, false); LaterReflexive(sys.ops[t]); OneLater(sys, t, sys.ops[t]);
      case Commits(_) =>
      case Invalidates(t, reason, d) => InvalidatedAlready(sys, t, reason, d);
      case CleanupSettles(t, ok) =>
        DecidedLater(sys.ops[t], ok, false);
        OneLater(sys, t, FinishCleanup(sys.ops[t], ok));
        UntrackingLater(sys, Land(sys, t, FinishCleanup(sys.ops[t], ok)), t);
      case Discards(id, d) => DisposedRefuses(sys, id, d);
    }
  }

  lemma UntrackingLater(sys: Sys, sys': Sys, t: nat)
    requires AllLater(sys, sys')
    ensures AllLater(sys, sys'.(poisoned := true, tracked := sys'.tracked - {t}))
  {
    hide Later;
  }

  lemma FenceLater(sys: Sys, c: Consumer, d: Controller, disks: nat -> Disk)
    requires forall t: nat | t < |sys.ops| :: Terminal(sys.ops[t])
    ensures Fence(sys, c, d, disks) == sys.(lineage := sys.lineage[(c, d) := Fenced])
  {
    hide RetireBelow, OpsOfLineage, Terminal;
    var sys1 := sys.(lineage := sys.lineage[(c, d) := Fenced]);
    RetiringTerminal(sys1, OpsOfLineage(sys1, c, d), |sys.ops|, disks);
  }

  lemma SameOpsLater(sys: Sys, sys': Sys)
    requires sys'.ops == sys.ops && sys'.tracked == sys.tracked && sys'.snapshot == sys.snapshot && sys'.settled == sys.settled
    requires sys'.store.result == sys.store.result && sys'.store.closeRequested == sys.store.closeRequested && sys'.closed == sys.closed
    ensures AllLater(sys, sys')
  {
  }

  lemma ControlLater(sys: Sys, e: Event)
    requires SysInv(sys) && Theorems.Enabled(sys, e) && sys.store.result.Some?
    requires e.Fences? || e.DiscardsLineage? || e.Closes?
    ensures AllLater(sys, Theorems.Step(sys, e))
  {
    hide SysInv, OpInv, AllLater, Fence, DiscardEach, CloseRequest, RetireBelow, Lists, Retired, ArtifactsOfLineage;
    DisposedFacts(sys);
    match e {
      case Fences(c, k, disks) => FenceLater(sys, c, k, disks);
      case DiscardsLineage(c, k, disks, order, fs) => FenceLater(sys, c, k, disks); DisposedRefusesAll(Fence(sys, c, k, disks), order, fs);
      case Closes(_, _) =>
    }
    SameOpsLater(sys, Theorems.Step(sys, e));
  }

  /** A lease moves no operation, no copy and no close. */
  lemma LeaseLater(sys: Sys, e: Event)
    requires SysInv(sys) && Theorems.Enabled(sys, e) && (e.Acquires? || e.Resumes?)
    ensures AllLater(sys, Theorems.Step(sys, e))
    ensures Theorems.Step(sys, e).store.closeRequested == sys.store.closeRequested && Theorems.Step(sys, e).store.inflight == sys.store.inflight
  {
    hide SysInv, AllLater, Theorems.Step, Theorems.Enabled;
    LeaseMovesNothing(sys, e);
    SameOpsLater(sys, Theorems.Step(sys, e));
  }

  lemma LeaseMovesNothing(sys: Sys, e: Event)
    requires SysInv(sys) && Theorems.Enabled(sys, e) && (e.Acquires? || e.Resumes?)
    ensures OnlyPermitMoved(sys, Theorems.Step(sys, e))
  {
    hide SysInv, LeaseEnter, WaiterResumes, AcquireLease, ResumeWaiter;
    if e.Acquires? { AcquireMovesStoreOnly(sys, e.id, e.c, e.as_, e.identityHolds); }
    else { ResumeMovesStoreOnly(sys, e.ticket, e.identityHolds); }
  }

  predicate OnlyPermitMoved(sys: Sys, sys': Sys) {
    && sys'.ops == sys.ops && sys'.tracked == sys.tracked && sys'.snapshot == sys.snapshot && sys'.settled == sys.settled && sys'.closed == sys.closed
    && sys'.store.result == sys.store.result && sys'.store.closeRequested == sys.store.closeRequested && sys'.store.inflight == sys.store.inflight
  }

  lemma AcquireMovesStoreOnly(sys: Sys, id: Id, c: Consumer, k: Option<Controller>, holds: bool)
    ensures OnlyPermitMoved(sys, AcquireLease(sys, id, c, k, holds).0)
  {
    hide AcquireLease, Authorized, LeaseEnter, SameClosing;
    AcquireIs(sys, id, c, k, holds);
    EnteringIsSameClosing(sys.store, id, c, holds);
    SameClosingMeans(sys.store, LeaseEnter(sys.store, id, c, holds).0);
  }

  lemma ResumeMovesStoreOnly(sys: Sys, ticket: Ticket, holds: bool)
    requires ticket in sys.store.permit.handed && ticket in sys.asked
    ensures OnlyPermitMoved(sys, ResumeWaiter(sys, ticket, holds).0)
  {
    hide WaiterResumes, SameClosing;
    var (id, c) := sys.asked[ticket];
    ResumingIsSameClosing(sys.store, ticket, id, c, holds);
    SameClosingMeans(sys.store, WaiterResumes(sys.store, ticket, id, c, holds).0);
  }

  /** Nothing that a close looks at moved. */
  predicate SameClosing(s: Store, s': Store) {
    s'.result == s.result && s'.closeRequested == s.closeRequested && s'.inflight == s.inflight
  }

  lemma SameIsSame(s: Store)
    ensures SameClosing(s, s)
  {
  }

  lemma SameClosingMeans(s: Store, s': Store)
    requires SameClosing(s, s')
    ensures s'.result == s.result && s'.closeRequested == s.closeRequested && s'.inflight == s.inflight
  {
  }

  lemma TakingIsSameClosing(s: Store, p: Permit, id: Id, holds: bool)
    ensures SameClosing(s, s.(permit := p)) && (id in s.records ==> SameClosing(s, TakePermit(s.(permit := p), id, holds).0))
  {
    hide Release, Closing;
  }

  lemma EnteringIsSameClosing(s: Store, id: Id, c: Consumer, holds: bool)
    ensures SameClosing(s, LeaseEnter(s, id, c, holds).0)
  {
    hide TakePermit, Enqueue, SameClosing, Closing;
    SameIsSame(s);
    assert s.(permit := s.permit) == s;
    TakingIsSameClosing(s, s.permit, id, holds);
    TakingIsSameClosing(s, Enqueue(s.permit), id, holds);
  }

  lemma ResumingIsSameClosing(s: Store, ticket: Ticket, id: Id, c: Consumer, holds: bool)
    requires ticket in s.permit.handed
    ensures SameClosing(s, WaiterResumes(s, ticket, id, c, holds).0)
  {
    hide TakePermit, Resume, Release, SameClosing, Closing;
    var s1 := s.(permit := Resume(s.permit, ticket));
    TakingIsSameClosing(s, s1.permit, id, holds);
    TakingIsSameClosing(s, Release(s1.permit, Closing(s1)), id, holds);
  }

  lemma NoCopyRuns(sys: Sys, e: Event)
    requires SysInv(sys) && sys.store.result.Some? && Theorems.Enabled(sys, e)
    ensures !e.CaptureLinks? && !e.CaptureCommits? && !e.Completes?
  {
    hide SysInv, Lists;
    DisposedFacts(sys);
  }

  /** Once the store is disposed of, no event but the close's own answer matters to what the close left. */
  lemma DisposedStep(sys: Sys, e: Event)
    requires SysInv(sys) && Theorems.Enabled(sys, e) && sys.store.result.Some? && !e.CloseSettles?
    ensures AllLater(sys, Theorems.Step(sys, e))
  {
    hide *;
    NoCopyRuns(sys, e);
    match e {
      case Creates(_, _) => StagingLater(sys, e);
      case Registers(_, _) => StagingLater(sys, e);
      case Lands(_, _) => DecidingLater(sys, e);
      case AccessorsEnd(_, _) => StagingLater(sys, e);
      case CaptureStarts(_, _) => StagingLater(sys, e);
      case CaptureLinks(_, _, _, _, _) =>
      case CaptureCommits(_, _, _, _, _, _) =>
      case Delivers(_, _) => StagingLater(sys, e);
      case JobEnds(_) => DecidingLater(sys, e);
      case Seals(_) => DecidingLater(sys, e);
      case Commits(_) => DecidingLater(sys, e);
      case Invalidates(_, _, _) => DecidingLater(sys, e);
      case CleanupSettles(_, _) => DecidingLater(sys, e);
      case Discards(_, _) => DecidingLater(sys, e);
      case Fences(_, _, _) => ControlLater(sys, e);
      case DiscardsLineage(_, _, _, _, _) => ControlLater(sys, e);
      case Acquires(_, _, _, _) => LeaseLater(sys, e);
      case Resumes(_, _) => LeaseLater(sys, e);
      case Completes(_, _, _) =>
      case Closes(_, _) => ControlLater(sys, e);
      case CloseSettles =>
    }
  }

  lemma AnswerIsKept(op: Op, failed: bool)
    ensures var op' := SettleStoreClose(op, failed); op'.storeClose == Some(failed) && (StillWaits(op') ==> StillWaits(op))
  {
  }

  lemma AnswerKeepsClosedWell(sys: Sys)
    requires ClosedWell(sys)
    ensures ClosedWell(StoreCloseSettles(sys))
  {
    hide SettleStoreClose, StillWaits, SettleBelow;
    if !sys.settled && sys.store.result.Some? {
      CloseSettlesTells(sys);
      forall t: nat | t < |sys.ops| ensures
        var op' := SettleStoreClose(sys.ops[t], sys.store.result == Some(FailedClose)); op'.storeClose.Some? && (StillWaits(op') ==> StillWaits(sys.ops[t]))
      {
        AnswerIsKept(sys.ops[t], sys.store.result == Some(FailedClose));
      }
    }
  }

  // Before the store is disposed of.

  /** Nothing of the close moved. */
  predicate SameClose(sys: Sys, sys': Sys) {
    && sys'.store.closeRequested == sys.store.closeRequested && sys'.store.inflight == sys.store.inflight && sys'.store.result == sys.store.result
    && (sys'.settled ==> sys.settled || sys.store.result.Some?) && sys'.closed == sys.closed
  }

  lemma SameCloseKeeps(sys: Sys, sys': Sys)
    requires ClosedWell(sys) && sys.store.result.None? && SameClose(sys, sys')
    ensures ClosedWell(sys')
  {
  }

  lemma FixedIsSameClose(sys: Sys, sys': Sys)
    requires Fixed(sys, sys')
    ensures SameClose(sys, sys')
  {
  }

  lemma LandSameClose(sys: Sys, t: nat, op: Op)
    requires t < |sys.ops|
    ensures SameClose(sys, Land(sys, t, op))
  {
  }

  lemma SmallSameClose(sys: Sys, e: Event)
    requires SysInv(sys) && Theorems.Enabled(sys, e)
    requires e.Creates? || e.Lands? || e.JobEnds? || e.Seals? || e.Commits? || e.CleanupSettles?
    ensures SameClose(sys, Theorems.Step(sys, e))
  {
    hide SysInv, Land, NoteLanding, Seal, EndJob, FinishCleanup, Commit, CommitOutcome;
    match e {
      case Creates(_, _) =>
      case Lands(t, pdf) => LandSameClose(sys, t, NoteLanding(sys.ops[t], pdf));
      case JobEnds(t) => LandSameClose(sys, t, EndJob(sys.ops[t]));
      case Seals(t) => LandSameClose(sys, t, Seal(sys.ops[t]));
      case Commits(t) =>
        LandSameClose(sys, t, Commit(sys.ops[t]));
        LandSameClose(sys.(owners := sys.owners[sys.ops[t].id := Entry(t, sys.ops[t].owner)]), t, Commit(sys.ops[t]));
      case CleanupSettles(t, ok) => LandSameClose(sys, t, FinishCleanup(sys.ops[t], ok));
    }
  }

  lemma FixedSameClose(sys: Sys, e: Event)
    requires SysInv(sys) && Theorems.Enabled(sys, e)
    requires e.Registers? || e.AccessorsEnd? || e.Delivers? || e.Invalidates? || e.Discards? || e.Completes?
    ensures SameClose(sys, Theorems.Step(sys, e))
  {
    hide SysInv, RegisterDownload, AccessorsEndAt, DeliverCapture, InvalidateOp, Discard, CompleteLease, Fixed, SameClose;
    match e {
      case Registers(t, d) => StagingFixed(sys, t, d);
      case AccessorsEnd(t, d) => StagingFixed(sys, t, d);
      case Delivers(t, d) => DeliverFixed(sys, t, d);
      case Invalidates(t, reason, d) => InvalidateFixed(sys, t, reason, d);
      case Discards(id, d) => DiscardFixed(sys, id, d);
      case Completes(lease, id, d) => CompletionFixed(sys, lease, id, d);
    }
    FixedIsSameClose(sys, Theorems.Step(sys, e));
  }

  lemma FenceSameClose(sys: Sys, c: Consumer, d: Controller, disks: nat -> Disk)
    ensures SameClose(sys, Fence(sys, c, d, disks))
  {
    hide RetireBelow;
    var sys1 := sys.(lineage := sys.lineage[(c, d) := Fenced]);
    RetireBelowFixed(sys1, OpsOfLineage(sys1, c, d), |sys.ops|, disks);
  }

  lemma LineageSameClose(sys: Sys, c: Consumer, d: Controller, disks: nat -> Disk, order: seq<Id>, fs: Id -> Disk)
    ensures SameClose(sys, DiscardLineage(sys, c, d, disks, order, fs).0)
  {
    hide Fence, DiscardEach;
    FenceSameClose(sys, c, d, disks);
    DiscardEachFixed(Fence(sys, c, d, disks), order, fs);
  }

  // The store is disposed of.

  /** Whatever an operation still waited for when its record was swept, it was told. */
  lemma SweepTellsWaiters(sys: Sys, st: Store, told: seq<Id>)
    requires SysInv(sys) && sys.closed && sys.store.result.None? && SysInv(sys.(store := st)) && (told == [] || SweptClean(st))
    requires (forall i, j | 0 <= i < j < |told| :: told[i] != told[j]) && (SweptClean(st) ==> forall id | id in sys.store.records :: id in told)
    ensures var sys' := NotifySwept(sys.(store := st), told);
      && sys'.store == st && sys'.settled == sys.settled
      && (SweptClean(st) ==> forall t: nat | t in sys'.tracked && t < |sys'.ops| :: !StillWaits(sys'.ops[t]))
  {
    hide SysInv, NotifySwept, NoteDiscarded, StillWaits, SweptClean, Agrees;
    var sys1 := sys.(store := st);
    NotifySweptDoes(sys1, told);
    var sys' := NotifySwept(sys1, told);
    if SweptClean(st) {
      forall t: nat | t in sys'.tracked && t < |sys'.ops| ensures !StillWaits(sys'.ops[t]) {
        WaiterHasRecord(sys, t);
        NotedWaitsNoMore(sys.ops[t]);
      }
    }
  }

  lemma WaiterHasRecord(sys: Sys, t: nat)
    requires SysInv(sys) && sys.closed && sys.store.result.None? && t in sys.tracked
    ensures t < |sys.ops| && Terminal(sys.ops[t])
    ensures StillWaits(sys.ops[t]) ==> sys.ops[t].id in sys.store.records
  {
    hide StoreInv, AtRest, OpInv, IdOk;
    assert TokenOk(sys, t);
  }

  lemma NotedWaitsNoMore(op: Op)
    requires Terminal(op)
    ensures !StillWaits(NoteDiscarded(op, true, Clean))
  {
  }

  lemma FinishTells(s: Store, o: CloseFs)
    requires AtRest(s) && Lists(o.order, s.records.Keys) && s.result.None?
    ensures var (st, told) := AfterCapture(s, o);
      && st.closeRequested == s.closeRequested && st.inflight == s.inflight
      && (s.closeRequested && s.inflight == map[] ==> st.result.Some? && (SweptClean(st) ==> told == o.order))
      && (!(s.closeRequested && s.inflight == map[]) ==> st == s && told == [])
  {
    hide AtRest, StoreInv, FinishClose, CloseSucceeds, Lists;
    AtRestIsStoreInv(s);
    NothingInFlight(s);
    if s.closeRequested && s.inflight == map[] {
      UndisposedMayFinish(s);
      CloseIsAllOrNothing(s, o);
    }
  }

  lemma UndisposedMayFinish(s: Store)
    requires StoreInv(s) && s.closeRequested && s.inflight == map[] && s.result.None?
    ensures MayFinishClose(s)
  {
  }

  lemma RequestTells(s: Store, o: CloseFs)
    requires AtRest(s) && Lists(o.order, s.records.Keys) && !s.closeRequested
    ensures var (st, told) := CloseRequest(s, o);
      && st.closeRequested && st.inflight == s.inflight
      && (st.result.Some? <==> s.inflight == map[]) && (SweptClean(st) ==> told == o.order) && (told == [] || SweptClean(st))
  {
    hide AtRest, StoreInv, CloseRequest, CloseSucceeds, Lists;
    AtRestIsStoreInv(s);
    NothingInFlight(s);
    CloseRequestKeeps(s, o);
    AtRestIsStoreInv(CloseRequest(s, o).0);
    NothingInFlight(CloseRequest(s, o).0);
  }

  lemma ListedIsDistinct(order: seq<Id>, ids: set<Id>)
    requires Lists(order, ids)
    ensures (forall i, j | 0 <= i < j < |order| :: order[i] != order[j]) && forall id | id in ids :: id in order
  {
  }

  lemma CloseKeepsClosedWell(sys: Sys, disks: nat -> Disk, o: CloseFs)
    requires SysInv(sys) && ClosedWell(sys) && Lists(o.order, Retired(sys, disks).store.records.Keys) && sys.store.result.None?
    ensures ClosedWell(CloseRuntime(sys, disks, o))
  {
    hide SysInv, AtRest, RetireBelow, CloseRequest, Lists, ClosedOver, NotifySwept, StillWaits, SweptClean, Fixed, Retired;
    if !sys.closed {
      OpenIsUnrequested(sys);
      RetiredKeeps(sys, disks);
      var sys1 := Retired(sys, disks);
      RetiredFixed(sys, disks);
      RetiredIs(sys, disks);
      InvIsCore(sys1);
      RequestTells(sys1.store, o);
      CloseRequestIsClosedOver(sys1.store, o);
      var (st, told) := CloseRequest(sys1.store, o);
      ClosedOverKeeps(sys1, st);
      ListedIsDistinct(o.order, sys1.store.records.Keys);
      SweepTellsWaiters(sys1, st, told);
    }
  }

  /** A first close takes its snapshot of everything tracked and asks the store. */
  lemma CloseTakesSnapshot(sys: Sys, disks: nat -> Disk, o: CloseFs)
    requires !sys.closed
    ensures var sys' := CloseRuntime(sys, disks, o);
      sys'.closed && sys'.snapshot == sys.tracked && sys'.store.closeRequested
  {
    hide RetireBelow, CloseRequest, NotifySwept, Shrinks;
    var sys0 := sys.(closed := true, snapshot := sys.tracked);
    RetireBelowFixed(sys0, sys.tracked, |sys.ops|, disks);
    var sys1 := RetireBelow(sys0, sys.tracked, |sys.ops|, disks);
    var (st, told) := CloseRequest(sys1.store, o);
    RequestIsKept(sys1.store, o);
    NotifySweptFixed(sys1.(store := st), told);
  }

  lemma RequestIsKept(s: Store, o: CloseFs)
    ensures CloseRequest(s, o).0.closeRequested
  {
    hide SweepRecords, ReleaseSwept, ProveIdentity, SettleAll, MayFinishClose;
    var s0 := s.(permit := SettleAll(s.permit, Closing(s)), closeRequested := true);
    FinishKeepsRequest(s0, o);
  }

  lemma FinishKeepsRequest(s: Store, o: CloseFs)
    ensures FinishClose(s, o).0.closeRequested == s.closeRequested
  {
    hide SweepRecords, ReleaseSwept, ProveIdentity, MarkUnhealthy, MayFinishClose;
    var s1 := ProveIdentity(s, o.identityHolds).0;
    var s2 := SweepRecords(s1, o.order, o.sweep).0;
    ProvenSame(s, o.identityHolds);
    SweepKeepsRequest(s1, o.order, o.sweep);
    SweptKeepsRequest(s2, o.order);
    MarkUnhealthySame(s2);
  }

  lemma {:induction false} SweepKeepsRequest(s: Store, ids: seq<Id>, fs: Id -> Fs)
    ensures SweepRecords(s, ids, fs).0.closeRequested == s.closeRequested
    decreases |ids|
  {
    hide DeletePhysical;
    if ids != [] {
      DeletePhysicalShrinks(s, ids[0], fs(ids[0]));
      SweepKeepsRequest(DeletePhysical(s, ids[0], fs(ids[0])).0, ids[1..], fs);
    }
  }

  lemma {:induction false} SweptKeepsRequest(s: Store, ids: seq<Id>)
    ensures ReleaseSwept(s, ids).closeRequested == s.closeRequested
    decreases |ids|
  {
    hide FreeCommitted;
    if ids != [] {
      FreeCommittedShrinks(Forget(s, ids[0], Deleted(true, false)), ids[0]);
      SweptKeepsRequest(FreeCommitted(Forget(s, ids[0], Deleted(true, false)), ids[0]), ids[1..]);
    }
  }

  lemma OpenIsUnrequested(sys: Sys)
    requires SysInv(sys) && !sys.closed
    ensures !sys.store.closeRequested
  {
    hide StoreInv, AtRest, Tokens, IdOk;
  }

  lemma RetiredFixed(sys: Sys, disks: nat -> Disk)
    ensures var sys' := Retired(sys, disks);
      && sys'.store.closeRequested == sys.store.closeRequested && sys'.store.result == sys.store.result
      && (sys'.settled ==> sys.settled || sys.store.result.Some?)
  {
    hide RetireBelow;
    RetireBelowFixed(sys.(closed := true, snapshot := sys.tracked), sys.tracked, |sys.ops|, disks);
  }

  lemma SegmentKeepsClosedWell(sys: Sys, t: nat, st: Store, r: CaptureResult, o: CloseFs)
    requires SysInv(sys) && ClosedWell(sys) && sys.store.result.None?
    requires t < |sys.ops| && sys.ops[t].job == Capturing && SegmentOf(sys.store, sys.ops[t].id, st, r) && Lists(o.order, st.records.Keys)
    ensures ClosedWell(CaptureSegment(sys, t, st, r, o))
  {
    hide SysInv, AtRest, AfterCapture, Lists, ClosedOver, NotifySwept, StillWaits, SweptClean, CaptureSettled, ClosedWell;
    CapturingIsUnreleased(sys, t);
    SegmentKeeps(sys, t, st, r);
    if r == Pending {
      PendingIsClosedWell(sys, st, t);
    } else {
      var sys1 := sys.(store := st, ops := sys.ops[t := CaptureSettled(sys.ops[t], r == Published)]);
      FinishTells(st, o);
      AfterCaptureIsClosedOver(st, o);
      var (st1, told) := AfterCapture(st, o);
      if st.closeRequested && st.inflight == map[] {
        StoreRequestIsClosed(sys1);
        ClosedOverKeeps(sys1, st1);
        ListedIsDistinct(o.order, st.records.Keys);
        SweepTellsWaiters(sys1, st1, told);
        SweptIsClosedWell(sys, NotifySwept(sys1.(store := st1), told));
      } else {
        NobodyTold(sys1);
        UnclosedIsClosedWell(sys, sys1);
      }
    }
  }

  lemma PendingIsClosedWell(sys: Sys, st: Store, t: nat)
    requires ClosedWell(sys) && sys.store.result.None? && t < |sys.ops| && SegmentOf(sys.store, sys.ops[t].id, st, Pending)
    ensures ClosedWell(sys.(store := st))
  {
    hide AtRest, StillWaits;
    assert sys.ops[t].id in st.inflight;
  }

  lemma SweptIsClosedWell(sys: Sys, sys': Sys)
    requires ClosedWell(sys) && sys.store.result.None? && sys'.settled == sys.settled && sys'.store.result.Some? && sys'.store.closeRequested
    requires SweptClean(sys'.store) ==> forall t: nat | t in sys'.tracked && t < |sys'.ops| :: !StillWaits(sys'.ops[t])
    ensures ClosedWell(sys')
  {
  }

  lemma UnclosedIsClosedWell(sys: Sys, sys': Sys)
    requires ClosedWell(sys) && sys.store.result.None? && sys'.settled == sys.settled
    requires sys'.store.closeRequested == sys.store.closeRequested && sys'.closed == sys.closed
    requires sys'.store.result.None? && !(sys'.store.closeRequested && sys'.store.inflight == map[])
    ensures ClosedWell(sys')
  {
  }

  lemma OpenedIsClosedWell(sys: Sys, t: nat, o: StageOutcome)
    requires SysInv(sys) && ClosedWell(sys) && t < |sys.ops| && sys.ops[t].job == Asking && Live(sys.ops[t]) && Bounded(o)
    ensures ClosedWell(StartCapture(sys, t, o))
  {
    hide SysInv, CaptureBegin, AtRest, Sound, Agrees, OpInv, Bounded, BeginCapture;
    InvIsCore(sys);
    LiveIsUnfenced(sys, t);
    OpenIsUnrequested(sys);
    LiveFacts(sys, t);
    TokenIsOk(sys, t);
    NotCapturing(sys, t);
    CaptureBeginKeeps(sys.store, sys.ops[t].id, sys.ops[t].owner.consumer, o);
    UnrequestedIsUnsettled(sys);
  }

  lemma UnrequestedIsUnsettled(sys: Sys)
    requires SysInv(sys) && ClosedWell(sys) && !sys.store.closeRequested
    ensures sys.store.result.None? && !sys.settled
  {
    hide Paid, Permitted, Tokens, IdOk;
  }

  lemma CopyKeepsClosedWell(sys: Sys, e: Event)
    requires SysInv(sys) && ClosedWell(sys) && Theorems.Enabled(sys, e) && sys.store.result.None? && (e.CaptureLinks? || e.CaptureCommits?)
    ensures ClosedWell(Theorems.Step(sys, e))
  {
    hide SysInv, ClosedWell, SegmentOf, CaptureSegment, Lists, Theorems.Linking, Theorems.Committing;
    if e.CaptureLinks? {
      Theorems.LinkingIsSegment(sys, e);
      SegmentKeepsClosedWell(sys, e.t, Theorems.Linking(sys, e).0, Theorems.Linking(sys, e).1, e.close);
    } else {
      Theorems.CommittingIsSegment(sys, e);
      SegmentKeepsClosedWell(sys, e.t, Theorems.Committing(sys, e).0, Theorems.Committing(sys, e).1, e.close);
    }
  }

  lemma StartStep(sys: Sys, e: Event)
    requires SysInv(sys) && ClosedWell(sys) && Theorems.Enabled(sys, e) && (e.CaptureStarts? || e.CloseSettles? || e.Closes?) && sys.store.result.None?
    ensures ClosedWell(Theorems.Step(sys, e))
  {
    hide SysInv, ClosedWell, StartCapture, CloseRuntime, Lists, Retired, Bounded;
    match e {
      case CaptureStarts(t, o) => OpenedIsClosedWell(sys, t, o);
      case Closes(disks, close) => CloseKeepsClosedWell(sys, disks, close);
      case CloseSettles => AnswerKeepsClosedWell(sys);
    }
  }

  lemma LineageStep(sys: Sys, e: Event)
    requires Theorems.Enabled(sys, e) && (e.Fences? || e.DiscardsLineage?)
    ensures SameClose(sys, Theorems.Step(sys, e))
  {
    hide SameClose, Fence, DiscardLineage, Lists, ArtifactsOfLineage;
    match e {
      case Fences(c, k, disks) => FenceSameClose(sys, c, k, disks);
      case DiscardsLineage(c, k, disks, order, fs) => LineageSameClose(sys, c, k, disks, order, fs);
    }
  }

  lemma LaterIsSameClose(sys: Sys, sys': Sys)
    requires AllLater(sys, sys') && sys'.store.closeRequested == sys.store.closeRequested && sys'.store.inflight == sys.store.inflight
    ensures SameClose(sys, sys')
  {
  }

  lemma UndisposedStep(sys: Sys, e: Event)
    requires SysInv(sys) && ClosedWell(sys) && Theorems.Enabled(sys, e) && sys.store.result.None?
    ensures ClosedWell(Theorems.Step(sys, e))
  {
    hide *;
    if e.CaptureLinks? || e.CaptureCommits? { CopyKeepsClosedWell(sys, e); }
    else if e.CaptureStarts? || e.CloseSettles? || e.Closes? { StartStep(sys, e); }
    else {
      if e.Creates? || e.Lands? || e.JobEnds? || e.Seals? || e.Commits? || e.CleanupSettles? { SmallSameClose(sys, e); }
      else if e.Fences? || e.DiscardsLineage? { LineageStep(sys, e); }
      else if e.Acquires? || e.Resumes? { LeaseLater(sys, e); LaterIsSameClose(sys, Theorems.Step(sys, e)); }
      else { FixedSameClose(sys, e); }
      SameCloseKeeps(sys, Theorems.Step(sys, e));
    }
  }

  lemma StepKeepsClosedWell(sys: Sys, e: Event)
    requires SysInv(sys) && ClosedWell(sys) && Theorems.Enabled(sys, e)
    ensures ClosedWell(Theorems.Step(sys, e))
  {
    hide *;
    if sys.store.result.None? { UndisposedStep(sys, e); }
    else if e.CloseSettles? { SettlingStep(sys, e); }
    else { DisposedStep(sys, e); LaterIsClosedWell(sys, Theorems.Step(sys, e)); }
  }

  lemma SettlingStep(sys: Sys, e: Event)
    requires ClosedWell(sys) && Theorems.Enabled(sys, e) && e.CloseSettles?
    ensures ClosedWell(Theorems.Step(sys, e))
  {
    hide ClosedWell, StoreCloseSettles;
    AnswerKeepsClosedWell(sys);
  }

  lemma {:induction false} RunKeepsClosedWell(sys: Sys, es: seq<Event>)
    requires SysInv(sys) && ClosedWell(sys)
    ensures SysInv(Theorems.Run(sys, es)) && ClosedWell(Theorems.Run(sys, es))
    decreases |es|
  {
    hide SysInv, ClosedWell, Theorems.Enabled, Theorems.Step, Lasts, Onward, Quietly;
    if es != [] {
      if Theorems.Enabled(sys, es[0]) {
        Theorems.StepKeepsInv(sys, es[0]);
        StepKeepsClosedWell(sys, es[0]);
      }
      RunKeepsClosedWell(if Theorems.Enabled(sys, es[0]) then Theorems.Step(sys, es[0]) else sys, es[1..]);
    }
  }

  lemma EmptyClosedWell(limits: Limits)
    ensures ClosedWell(EmptySys(limits))
  {
  }

  /** In every reachable state: a closed runtime's store was asked to close, and only a running copy can still hold its result up. */
  lemma NoCloseIsOwed(limits: Limits, es: seq<Event>)
    ensures var sys := Theorems.Run(EmptySys(limits), es);
      sys.closed && sys.store.result.None? ==>
        sys.store.closeRequested && exists t: nat :: t < |sys.ops| && sys.ops[t].job == Capturing
  {
    hide SysInv, Theorems.Run, StillWaits, Agrees;
    Theorems.EmptyInv(limits);
    EmptyClosedWell(limits);
    RunKeepsClosedWell(EmptySys(limits), es);
    var sys := Theorems.Run(EmptySys(limits), es);
    if sys.closed && sys.store.result.None? {
      var id :| id in sys.store.inflight;
      InvIsCore(sys);
      HeldById(sys, id);
      NotCapturing(sys, sys.reserved[id]);
    }
  }

  lemma AnsweredOp(op: Op)
    requires OpInv(op) && Terminal(op) && op.storeClose.Some? && !StillWaits(op)
    ensures op.released <==> op.active == 0 && op.cleanup != Running && !op.cleanupUnconfirmed && !op.cleanupFailed
  {
  }

  /**
   After a clean close whose result was given out, in every reachable state: an operation of the close's
   snapshot has released exactly when its own staging job and its driver's disposal are over and nothing
   of it was lost. The close itself keeps nobody waiting.
   */
  lemma CleanCloseReleases(limits: Limits, es: seq<Event>, t: nat)
    ensures var sys := Theorems.Run(EmptySys(limits), es);
      sys.settled && SweptClean(sys.store) && t in sys.snapshot && t < |sys.ops| ==>
        var op := sys.ops[t];
        op.released <==> op.active == 0 && op.cleanup != Running && !op.cleanupUnconfirmed && !op.cleanupFailed
  {
    hide SysInv, Theorems.Run, StillWaits, OpInv, SweptClean;
    Theorems.EmptyInv(limits);
    EmptyClosedWell(limits);
    RunKeepsClosedWell(EmptySys(limits), es);
    var sys := Theorems.Run(EmptySys(limits), es);
    if sys.settled && SweptClean(sys.store) && t in sys.snapshot && t < |sys.ops| {
      DisposedFacts(sys);
      if t in sys.tracked || sys.ops[t].released { AnsweredUnless(sys, t); }
      else { UntrackedIsLost(sys, t); }
    }
  }

  lemma AnsweredUnless(sys: Sys, t: nat)
    requires ClosedWell(sys) && sys.settled && SweptClean(sys.store) && t in sys.snapshot && t < |sys.ops|
    requires OpInv(sys.ops[t]) && Terminal(sys.ops[t]) && (t in sys.tracked || sys.ops[t].released)
    ensures var op := sys.ops[t];
      op.released <==> op.active == 0 && op.cleanup != Running && !op.cleanupUnconfirmed && !op.cleanupFailed
  {
    if t in sys.tracked { AnsweredOp(sys.ops[t]); }
  }

  lemma UntrackedIsLost(sys: Sys, t: nat)
    requires SysInv(sys) && t < |sys.ops| && !sys.ops[t].released && t !in sys.tracked
    ensures sys.ops[t].cleanupUnconfirmed
  {
    hide StoreInv, AtRest, OpInv;
    assert TokenOk(sys, t);
  }
}
