/** What each step of the runtime does do: who is discarded, who is retired, who is told, what is freed. */
module RuntimeOutcomes {
  import opened Common
  import opened ReservationLedger
  import opened PermitModel
  import opened OperationModel
  import opened StoreModel
  import opened StoreHistory
  import opened StoreOutcomes
  import opened RuntimeModel
  import opened RuntimeInvariants
  import opened RuntimeProofs
  import opened RuntimeSteps
  import opened RuntimeRuns

  // -- one discard --------------------------------------------------------------------------------

  /** Nobody undecided holds the id, so the notification of its deletion reaches nobody who would discard again. */
  predicate Decided(sys: Sys, id: Id) {
    id in sys.reserved && sys.reserved[id] < |sys.ops| ==> Terminal(sys.ops[sys.reserved[id]])
  }

  lemma DecidedIsOnlyTold(sys: Sys, id: Id, nested: Fs)
    requires Decided(sys, id)
    ensures Notify(sys, id, false, nested).store == sys.store
  {
    hide Land, NoteDiscarded, QuietDiscard, Terminal;
    if id in sys.reserved && sys.reserved[id] < |sys.ops| {
      LandChangesBooksOnly(sys, sys.reserved[id], NoteDiscarded(sys.ops[sys.reserved[id]], false, Clean));
    }
  }

  lemma DecidedDiscardIsDirect(sys: Sys, id: Id, d: Disk)
    requires Decided(sys, id)
    ensures var (sys', a) := Discard(sys, id, d);
      (sys'.store, a) == DirectDiscard(sys.store, id, d.outer)
  {
    hide Notify, DeletePhysical, Forget, FreeCommitted, Notifies, Gate;
    if Gate(sys.store, id).None? {
      var (st, del) := DeletePhysical(sys.store, id, d.outer);
      if del.Some? { DecidedIsOnlyTold(sys.(store := Forget(st, id, del.value)), id, d.nested); }
    }
  }

  lemma StoreIsSafe(sys: Sys, id: Id)
    requires SysInv(sys)
    ensures StoreInv(sys.store) && Safe(sys.store, id)
  {
    hide StoreInv, AtRest, Tokens, IdOk;
    AtRestIsSafe(sys.store, id);
  }

  /** A discard of a decided artifact answers as it must and moves every book of the store exactly so. */
  lemma DiscardDoes(sys: Sys, id: Id, d: Disk)
    requires SysInv(sys) && Decided(sys, id)
    ensures var (sys', a) := Discard(sys, id, d);
      && a == Verdict(sys.store, id, d.outer)
      && DiscardedOne(sys.store, sys'.store, id, a)
  {
    hide SysInv, Discard, DirectDiscard, StoreInv, Safe, Verdict, DiscardedOne, Decided;
    DecidedDiscardIsDirect(sys, id, d);
    StoreIsSafe(sys, id);
    DiscardIsExact(sys.store, id, d.outer);
  }

  lemma OwnerIsDecided(sys: Sys, id: Id)
    requires SysInv(sys) && id in sys.owners
    ensures Decided(sys, id) && id in sys.reserved && sys.reserved[id] < |sys.ops|
    ensures var op := sys.ops[sys.reserved[id]];
      op.id == id && OpInv(op) && !op.released && op.state == Committed(Available) && sys.owners[id] == Entry(sys.reserved[id], op.owner)
    ensures !SweptClean(sys.store) ==>
      && id in sys.store.records && id !in sys.store.inflight
      && var op := sys.ops[sys.reserved[id]];
         op.waitingForArtifact && !op.refusalPending && !op.cleanupFailed && sys.reserved[id] in sys.tracked
  {
    hide StoreInv, AtRest;
    assert IdOk(sys, id);
    assert TokenOk(sys, sys.reserved[id]);
  }

  /**
   A request for an artifact, whoever makes it, is granted or queued exactly when: the artifact is
   committed and owned, the request comes from its consumer and, for a drive, its controller, no fence is
   up, the store is open and healthy, and nobody is being streamed the artifact already.
   */
  lemma ServedExactly(sys: Sys, id: Id, c: Consumer, k: Option<Controller>)
    requires SysInv(sys)
    ensures AcquireLease(sys, id, c, k, true).1 != NoLease <==>
      && id in sys.owners
      && var o := sys.owners[id].owner;
      && o.consumer == c && (o.DriveOwned? ==> k == Some(o.controller)) && !FencedOwner(sys, o)
      && !Closing(sys.store) && !Leased(sys.store, id)
  {
    hide SysInv, Authorized, Leasable, AcquireLease, Closing, OnlyLease, Lasts, Onward, SweptClean;
    AcquireLeaseKeeps(sys, id, c, k, true);
    AuthorizedExactly(sys, id, c, k);
    if id in sys.owners && !Closing(sys.store) {
      OpenIsUnswept(sys);
      OwnedIsLeasable(sys, id);
    }
    LeasableIsOpen(sys.store, id, c);
  }

  lemma LeasableIsOpen(s: Store, id: Id, c: Consumer)
    ensures Leasable(s, id, c) ==> !Closing(s) && !Leased(s, id)
    ensures id in s.records && s.records[id].consumer == c && !Closing(s) && !Leased(s, id) ==> Leasable(s, id, c)
  {
  }

  lemma OpenIsUnswept(sys: Sys)
    requires SysInv(sys) && !Closing(sys.store)
    ensures !SweptClean(sys.store)
  {
    hide SysInv, SweptClean;
    UnsweptWhileOpen(sys);
  }

  lemma OwnedIsLeasable(sys: Sys, id: Id)
    requires SysInv(sys) && id in sys.owners && !SweptClean(sys.store)
    ensures id in sys.store.records && sys.store.records[id].consumer == sys.owners[id].owner.consumer
  {
    hide StoreInv, AtRest, OpInv;
    assert IdOk(sys, id);
    assert TokenOk(sys, sys.reserved[id]);
  }

  /** Whom the owner ledger lets at an artifact. */
  lemma AuthorizedExactly(sys: Sys, id: Id, c: Consumer, k: Option<Controller>)
    requires SysInv(sys)
    ensures Authorized(sys, id, c, k) <==>
      && id in sys.owners
      && var o := sys.owners[id].owner;
      && o.consumer == c && (o.DriveOwned? ==> k == Some(o.controller)) && !FencedOwner(sys, o)
  {
    hide StoreInv, AtRest, OpInv, Agrees;
    if id in sys.owners { OwnerHasLineage(sys, id); }
  }

  lemma OwnerHasLineage(sys: Sys, id: Id)
    requires SysInv(sys) && id in sys.owners
    ensures var o := sys.owners[id].owner; o.DriveOwned? ==> (o.consumer, o.controller) in sys.lineage
  {
    hide StoreInv, AtRest, OpInv;
    OwnerIsDecided(sys, id);
    assert TokenOk(sys, sys.reserved[id]);
  }

  /** What a committed artifact's operation is waiting for, and nothing else. */
  predicate AwaitsDeletion(op: Op) {
    && op.state == Committed(Available) && !op.released && OpInv(op)
    && op.waitingForArtifact && !op.refusalPending && !op.cleanupFailed
  }

  lemma DeletionReleases(op: Op)
    requires AwaitsDeletion(op)
    ensures NoteDiscarded(op, false, Clean).released && NoteDiscarded(op, false, Clean).id == op.id
  {
  }

  lemma LandingFrees(sys: Sys, t: nat, op: Op)
    requires t < |sys.ops| && op.released && !sys.ops[t].released && op.id in sys.reserved && sys.reserved[op.id] == t
    ensures var sys' := Land(sys, t, op);
      op.id !in sys'.reserved && t !in sys'.tracked && |sys'.ops| == |sys.ops| && sys'.ops[t] == op
  {
  }

  lemma ToldIsFreed(sys: Sys, id: Id, nested: Fs)
    requires id in sys.reserved && sys.reserved[id] in sys.tracked && sys.reserved[id] < |sys.ops|
    requires AwaitsDeletion(sys.ops[sys.reserved[id]]) && sys.ops[sys.reserved[id]].id == id
    ensures var sys' := Notify(sys, id, false, nested);
      && id !in sys'.reserved && sys.reserved[id] !in sys'.tracked
      && sys.reserved[id] < |sys'.ops| && sys'.ops[sys.reserved[id]].released
  {
    hide Land, NoteDiscarded, OpInv, QuietDiscard;
    var t := sys.reserved[id];
    DeletionReleases(sys.ops[t]);
    LandingFrees(sys, t, NoteDiscarded(sys.ops[t], false, Clean));
  }

  /** The artifact's record just forgotten, its operation not told yet. */
  function Untold(sys: Sys, id: Id, d: Disk): Sys {
    var (st, del) := DeletePhysical(sys.store, id, d.outer);
    if del.None? then sys else sys.(store := Forget(st, id, del.value))
  }

  lemma UntoldIsItself(sys: Sys, id: Id, d: Disk)
    ensures var sys1 := Untold(sys, id, d); sys1.ops == sys.ops && sys1.reserved == sys.reserved && sys1.tracked == sys.tracked
  {
    hide DeletePhysical, Forget;
  }

  lemma CleanDiscardTells(sys: Sys, id: Id, d: Disk)
    requires Discard(sys, id, d).1 == Clean && id in sys.store.records
    ensures var sys1 := Notify(Untold(sys, id, d), id, false, d.nested); var sys' := Discard(sys, id, d).0;
      sys'.ops == sys1.ops && sys'.reserved == sys1.reserved
  {
    hide Notify, FreeCommitted, DeletePhysical, Forget;
    DeletionFound(sys.store, id, d.outer);
    var (st, del) := DeletePhysical(sys.store, id, d.outer);
    assert Notifies(del.value);
    assert Discard(sys, id, d).0 == LogicalHalf(sys.(store := st), id, del.value, d.nested);
    assert Untold(sys, id, d) == sys.(store := Forget(st, id, del.value));
  }

  lemma DeletionFound(s: Store, id: Id, fs: Fs)
    requires id in s.records
    ensures var (st, del) := DeletePhysical(s, id, fs); del.Some? ==> del.value.existed
  {
    hide SettleAll, RunSettle;
  }

  lemma CleanedOne(s: Store, s': Store, id: Id)
    requires DiscardedOne(s, s', id, Clean) && id !in s.inflight
    ensures id !in s'.records && id !in s'.ledger.live
  {
  }

  lemma CleanMeansOpen(s: Store, id: Id, fs: Fs)
    requires Verdict(s, id, fs) == Clean
    ensures !s.closeRequested && !s.unhealthy && !Leased(s, id)
  {
  }

  lemma OwnerAwaitsDeletion(sys: Sys, id: Id)
    requires SysInv(sys) && id in sys.owners && !SweptClean(sys.store)
    ensures id in sys.reserved && sys.reserved[id] < |sys.ops| && AwaitsDeletion(sys.ops[sys.reserved[id]])
    ensures sys.ops[sys.reserved[id]].id == id && sys.reserved[id] in sys.tracked && id in sys.store.records && id !in sys.store.inflight
  {
    hide SysInv, OpInv, SweptClean;
    OwnerIsDecided(sys, id);
  }

  /**
   A committed artifact discarded cleanly: its operation is released, and its id, its capacity and its
   owner entry are free again.
   */
  lemma CleanDiscardReleases(sys: Sys, id: Id, d: Disk)
    requires SysInv(sys) && id in sys.owners && Discard(sys, id, d).1 == Clean
    ensures var sys' := Discard(sys, id, d).0;
      && id !in sys'.owners && id !in sys'.reserved && id !in sys'.store.records && id !in sys'.store.ledger.live
      && id in sys.reserved && sys.reserved[id] < |sys'.ops| && sys'.ops[sys.reserved[id]].released
  {
    hide *;
    OwnerIsDecided(sys, id);
    DiscardDoes(sys, id, d);
    CleanMeansOpen(sys.store, id, d.outer);
    UnsweptWhileOpen(sys);
    OwnerAwaitsDeletion(sys, id);
    CleanedOne(sys.store, Discard(sys, id, d).0.store, id);
    DiscardKeeps(sys, id, d);
    CleanDiscardTells(sys, id, d);
    UntoldIsItself(sys, id, d);
    ToldIsFreed(Untold(sys, id, d), id, d.nested);
  }

  lemma UnsweptWhileOpen(sys: Sys)
    requires SysInv(sys) && !sys.store.closeRequested
    ensures !SweptClean(sys.store)
  {
    hide Paid, Permitted, Tokens, IdOk;
  }

  // -- a lineage of them --------------------------------------------------------------------------

  lemma LandReserves(sys: Sys, t: nat, op: Op)
    requires t < |sys.ops|
    ensures Land(sys, t, op).reserved.Keys <= sys.reserved.Keys
  {
  }

  lemma NotifyReserves(sys: Sys, id: Id, closeOwned: bool, nested: Fs)
    ensures Notify(sys, id, closeOwned, nested).reserved.Keys <= sys.reserved.Keys
  {
    hide Land, NoteDiscarded, QuietDiscard;
    if id in sys.reserved && sys.reserved[id] < |sys.ops| {
      var t := sys.reserved[id];
      var (st, a) := QuietDiscard(sys.store, id, nested);
      LandReserves(sys, t, NoteDiscarded(sys.ops[t], closeOwned, Clean));
      LandReserves(sys.(store := st), t, NoteDiscarded(sys.ops[t], closeOwned, a));
    }
  }

  /** A discard reserves nothing, and one that is not clean moves nothing but, perhaps, the health of the store. */
  lemma UncleanMovesNothing(sys: Sys, id: Id, d: Disk)
    ensures var (sys', a) := Discard(sys, id, d);
      && sys'.reserved.Keys <= sys.reserved.Keys
      && (a != Clean ==> sys' == sys.(store := sys'.store))
  {
    hide Notify, DeletePhysical, FreeCommitted, Forget, Notifies, Gate;
    var (st, del) := DeletePhysical(sys.store, id, d.outer);
    if del.Some? { NotifyReserves(sys.(store := Forget(st, id, del.value)), id, false, d.nested); }
  }

  function AttemptsOn(ids: seq<Id>, disks: Id -> Disk): (r: seq<Attempt>)
    ensures |r| == |ids| && forall k | 0 <= k < |ids| :: r[k] == Attempt(ids[k], disks(ids[k]).outer)
  {
    seq(|ids|, k requires 0 <= k < |ids| => Attempt(ids[k], disks(ids[k]).outer))
  }

  /** Every artifact of a list got its own attempt, and its own answer, whatever came of the others. */
  ghost predicate EachAnswered(s: Store, sys': Sys, answers: seq<Answer>, xs: seq<Attempt>, first: nat, ids: seq<Id>) {
    && |answers| == |ids| && first + |ids| == |xs|
    && DiscardedAll(s, sys'.store, xs)
    && (forall k | 0 <= k < |ids| :: answers[k] == VerdictAt(s, xs, first + k))
    && (forall k | 0 <= k < |ids| :: (ids[k] in sys'.owners <==> answers[k] != Clean) && (answers[k] == Clean ==> ids[k] !in sys'.reserved))
  }

  ghost predicate Doomed(sys: Sys, ids: seq<Id>) {
    && (forall id | id in ids :: id in sys.owners)
    && (forall i, j | 0 <= i < j < |ids| :: ids[i] != ids[j])
  }

  lemma OthersStayDoomed(sys: Sys, sys': Sys, ids: seq<Id>)
    requires Doomed(sys, ids) && ids != [] && OnlyId(sys, sys', ids[0])
    ensures Doomed(sys', ids[1..])
  {
    forall id | id in ids[1..] ensures id in sys'.owners {
      var k :| 0 <= k < |ids[1..]| && ids[1..][k] == id;
      assert ids[k + 1] == id;
    }
  }

  predicate Untried(done: seq<Attempt>, ids: seq<Id>) {
    forall j, k | 0 <= j < |done| && 0 <= k < |ids| :: done[j].id != ids[k]
  }

  lemma {:induction false} EachIsAttempted(s: Store, sys: Sys, done: seq<Attempt>, ids: seq<Id>, disks: Id -> Disk)
    requires SysInv(sys) && Doomed(sys, ids) && Untried(done, ids) && DiscardedAll(s, sys.store, done)
    ensures var (sys', answers) := DiscardEach(sys, ids, disks);
      && SysInv(sys') && sys'.reserved.Keys <= sys.reserved.Keys
      && (forall k | k in sys.owners && k !in ids :: k in sys'.owners) && sys'.owners.Keys <= sys.owners.Keys
      && EachAnswered(s, sys', answers, done + AttemptsOn(ids, disks), |done|, ids)
    decreases |ids|
  {
    hide *;
    if ids == [] {
      NoneAnswered(s, sys, done, disks);
    } else {
      DiscardNext(sys, ids, disks);
      var id := ids[0];
      var (sys1, a) := Discard(sys, id, disks(id));
      var x := Attempt(id, disks(id).outer);
      AttemptNext(s, sys, done, ids, disks);
      DiscardKeeps(sys, id, disks(id));
      OthersStayDoomed(sys, sys1, ids);
      UntriedNext(sys, done, ids, x);
      EachIsAttempted(s, sys1, done + [x], ids[1..], disks);
      var (sys2, answers) := DiscardEach(sys1, ids[1..], disks);
      FirstSettled(sys, sys2, ids, disks);
      AnswersJoin(s, sys2, a, answers, done, ids, disks);
      OthersKept(sys, sys1, sys2, ids);
    }
  }

  lemma NoneAnswered(s: Store, sys: Sys, done: seq<Attempt>, disks: Id -> Disk)
    requires DiscardedAll(s, sys.store, done)
    ensures DiscardEach(sys, [], disks) == (sys, []) && EachAnswered(s, sys, [], done + AttemptsOn([], disks), |done|, [])
  {
    hide DiscardedAll;
    assert done + AttemptsOn([], disks) == done;
  }

  lemma DiscardNext(sys: Sys, ids: seq<Id>, disks: Id -> Disk)
    requires ids != []
    ensures var (sys1, a) := Discard(sys, ids[0], disks(ids[0]));
      var (sys2, answers) := DiscardEach(sys1, ids[1..], disks);
      DiscardEach(sys, ids, disks) == (sys2, [a] + answers)
  {
    hide Discard;
  }

  lemma UntriedNext(sys: Sys, done: seq<Attempt>, ids: seq<Id>, x: Attempt)
    requires ids != [] && Untried(done, ids) && x.id == ids[0] && Doomed(sys, ids)
    ensures Untried(done + [x], ids[1..])
  {
  }

  lemma AttemptNext(s: Store, sys: Sys, done: seq<Attempt>, ids: seq<Id>, disks: Id -> Disk)
    requires SysInv(sys) && ids != [] && Doomed(sys, ids) && Untried(done, ids) && DiscardedAll(s, sys.store, done)
    ensures var (sys1, a) := Discard(sys, ids[0], disks(ids[0]));
      var x := Attempt(ids[0], disks(ids[0]).outer);
      a == VerdictAt(s, done + [x], |done|) && DiscardedAll(s, sys1.store, done + [x])
  {
    hide SysInv, Discard, DiscardedAll, DiscardedOne, Verdict, VerdictAt, Decided;
    var x := Attempt(ids[0], disks(ids[0]).outer);
    OwnerIsDecided(sys, ids[0]);
    DiscardDoes(sys, ids[0], disks(ids[0]));
    NextVerdict(s, sys.store, done, x);
    OneMoreAttempt(s, sys.store, Discard(sys, ids[0], disks(ids[0])).0.store, done, x);
  }

  lemma VerdictOfPrefix(s: Store, xs: seq<Attempt>, more: seq<Attempt>, k: nat)
    requires k < |xs|
    ensures VerdictAt(s, xs + more, k) == VerdictAt(s, xs, k)
  {
    assert forall j | 0 <= j < |xs| :: (xs + more)[j] == xs[j];
  }

  lemma AnswersJoin(s: Store, sys': Sys, a: Answer, answers: seq<Answer>, done: seq<Attempt>, ids: seq<Id>, disks: Id -> Disk)
    requires ids != []
    requires var x := Attempt(ids[0], disks(ids[0]).outer);
      && a == VerdictAt(s, done + [x], |done|)
      && EachAnswered(s, sys', answers, (done + [x]) + AttemptsOn(ids[1..], disks), |done + [x]|, ids[1..])
    requires (ids[0] in sys'.owners <==> a != Clean) && (a == Clean ==> ids[0] !in sys'.reserved)
    ensures EachAnswered(s, sys', [a] + answers, done + AttemptsOn(ids, disks), |done|, ids)
  {
    hide DiscardedAll, VerdictAt;
    var x := Attempt(ids[0], disks(ids[0]).outer);
    var rest := AttemptsOn(ids[1..], disks);
    assert done + AttemptsOn(ids, disks) == (done + [x]) + rest;
    VerdictOfPrefix(s, done + [x], rest, |done|);
    forall k | 0 <= k < |ids| ensures
      && ([a] + answers)[k] == VerdictAt(s, done + AttemptsOn(ids, disks), |done| + k)
      && (ids[k] in sys'.owners <==> ([a] + answers)[k] != Clean) && (([a] + answers)[k] == Clean ==> ids[k] !in sys'.reserved)
    {
      if k > 0 {
        assert ids[1..][k - 1] == ids[k] && ([a] + answers)[k] == answers[k - 1];
        assert |done + [x]| + (k - 1) == |done| + k;
      }
    }
  }

  /** What the first attempt decided stays decided while the others are made. */
  lemma FirstSettled(sys: Sys, sys2: Sys, ids: seq<Id>, disks: Id -> Disk)
    requires SysInv(sys) && ids != [] && Doomed(sys, ids)
    requires var sys1 := Discard(sys, ids[0], disks(ids[0])).0;
      && sys2.reserved.Keys <= sys1.reserved.Keys && sys2.owners.Keys <= sys1.owners.Keys
      && (forall k | k in sys1.owners && k !in ids[1..] :: k in sys2.owners)
    ensures var a := Discard(sys, ids[0], disks(ids[0])).1;
      (ids[0] in sys2.owners <==> a != Clean) && (a == Clean ==> ids[0] !in sys2.reserved)
    ensures sys2.reserved.Keys <= sys.reserved.Keys
  {
    hide SysInv, Discard;
    UncleanMovesNothing(sys, ids[0], disks(ids[0]));
    assert ids[0] !in ids[1..];
    if Discard(sys, ids[0], disks(ids[0])).1 == Clean { CleanDiscardReleases(sys, ids[0], disks(ids[0])); }
  }

  lemma OthersKept(sys: Sys, sys1: Sys, sys2: Sys, ids: seq<Id>)
    requires ids != [] && OnlyId(sys, sys1, ids[0]) && sys2.owners.Keys <= sys1.owners.Keys
    requires forall k | k in sys1.owners && k !in ids[1..] :: k in sys2.owners
    ensures (forall k | k in sys.owners && k !in ids :: k in sys2.owners) && sys2.owners.Keys <= sys.owners.Keys
  {
    forall k | k in sys.owners && k !in ids ensures k in sys2.owners {
      assert k != ids[0] && k in sys1.owners;
      assert forall j | j in ids[1..] :: j in ids;
    }
  }

  // -- retiring a snapshot --------------------------------------------------------------------------

  /** An invalidation folds the one answer the store must give into the operation, and moves no other. */
  lemma InvalidateDoes(sys: Sys, t: nat, reason: Reason, d: Disk)
    requires SysInv(sys) && t < |sys.ops| && Live(sys.ops[t])
    ensures var sys' := InvalidateOp(sys, t, reason, d);
      var a := Verdict(sys.store, sys.ops[t].id, d.outer);
      && DiscardedOne(sys.store, sys'.store, sys.ops[t].id, a)
      && sys'.ops == sys.ops[t := Invalidate(sys.ops[t], reason, a)]
  {
    hide SysInv, SysCore, InvalidateOp, Invalidate, DirectDiscard, DiscardedOne, Verdict, StoreInv, Safe, Land;
    InvIsCore(sys);
    LiveFacts(sys, t);
    InvalidationLands(sys, t, reason, d);
    StoreIsSafe(sys, sys.ops[t].id);
    DiscardIsExact(sys.store, sys.ops[t].id, d.outer);
    var (st, a) := DirectDiscard(sys.store, sys.ops[t].id, d.outer);
    LandOps(sys.(store := st), t, Invalidate(sys.ops[t], reason, a));
    LandChangesBooksOnly(sys.(store := st), t, Invalidate(sys.ops[t], reason, a));
  }

  predicate Retires(sys: Sys, doomed: set<nat>, t: nat) { t in doomed && t < |sys.ops| && Live(sys.ops[t]) }

  function RetireAttempt(sys: Sys, t: nat, disks: nat -> Disk): Attempt
    requires t < |sys.ops|
  {
    Attempt(sys.ops[t].id, disks(t).outer)
  }

  predicate SpoilsRetiring(sys: Sys, doomed: set<nat>, disks: nat -> Disk, t: nat) {
    Retires(sys, doomed, t) && Spoils(sys.store, RetireAttempt(sys, t, disks))
  }

  /** What the store answers to the retirement of token `t`: one failed deletion poisons it for the rest. */
  function RetireVerdict(sys: Sys, doomed: set<nat>, disks: nat -> Disk, t: nat): Answer
    requires t < |sys.ops|
  {
    if sys.store.closeRequested then Refused
    else if sys.store.unhealthy || (exists k | 0 <= k < t :: SpoilsRetiring(sys, doomed, disks, k)) then Failed
    else Verdict(sys.store, sys.ops[t].id, disks(t).outer)
  }

  predicate RetireCleans(sys: Sys, doomed: set<nat>, disks: nat -> Disk, n: nat, id: Id) {
    exists t | 0 <= t < n :: Retires(sys, doomed, t) && sys.ops[t].id == id && RetireVerdict(sys, doomed, disks, t) == Clean
  }

  function RetireAttempts(sys: Sys, doomed: set<nat>, disks: nat -> Disk, n: nat): seq<Attempt> {
    if n == 0 then []
    else
      var xs := RetireAttempts(sys, doomed, disks, n - 1);
      if Retires(sys, doomed, n - 1) then xs + [RetireAttempt(sys, n - 1, disks)] else xs
  }

  lemma OneMoreSpoiler(sys: Sys, doomed: set<nat>, disks: nat -> Disk, n: nat)
    requires n > 0
    ensures (exists k | 0 <= k < n :: SpoilsRetiring(sys, doomed, disks, k))
      <==> (exists k | 0 <= k < n - 1 :: SpoilsRetiring(sys, doomed, disks, k)) || SpoilsRetiring(sys, doomed, disks, n - 1)
  {
    hide SpoilsRetiring;
  }

  lemma NothingSpoilt(s: Store)
    ensures !SpoiltBefore(s, [], 0)
  {
  }

  lemma {:induction false} SpoiltRetiring(sys: Sys, doomed: set<nat>, disks: nat -> Disk, n: nat)
    ensures var xs := RetireAttempts(sys, doomed, disks, n);
      SpoiltBefore(sys.store, xs, |xs|) <==> exists k | 0 <= k < n :: SpoilsRetiring(sys, doomed, disks, k)
    decreases n
  {
    hide SpoiltBefore, Spoils;
    if n == 0 {
      NothingSpoilt(sys.store);
    } else {
      var xs := RetireAttempts(sys, doomed, disks, n - 1);
      SpoiltRetiring(sys, doomed, disks, n - 1);
      if Retires(sys, doomed, n - 1) { SpoiltOneMore(sys.store, xs, RetireAttempt(sys, n - 1, disks)); }
      OneMoreSpoiler(sys, doomed, disks, n);
    }
  }

  /** Each attempt of a retirement answers as it must. */
  lemma RetireVerdictIs(sys: Sys, doomed: set<nat>, disks: nat -> Disk, t: nat)
    requires t < |sys.ops|
    ensures var xs := RetireAttempts(sys, doomed, disks, t);
      VerdictAt(sys.store, xs + [RetireAttempt(sys, t, disks)], |xs|) == RetireVerdict(sys, doomed, disks, t)
  {
    hide SpoiltBefore, SpoilsRetiring, Verdict, RetireAttempts;
    var xs := RetireAttempts(sys, doomed, disks, t);
    VerdictsStay(sys.store, xs, RetireAttempt(sys, t, disks), |xs|);
    SpoiltRetiring(sys, doomed, disks, t);
  }

  lemma OneMoreCleans(sys: Sys, doomed: set<nat>, disks: nat -> Disk, n: nat, id: Id)
    requires n > 0
    ensures RetireCleans(sys, doomed, disks, n, id)
      <==> || RetireCleans(sys, doomed, disks, n - 1, id)
           || (Retires(sys, doomed, n - 1) && sys.ops[n - 1].id == id && RetireVerdict(sys, doomed, disks, n - 1) == Clean)
  {
    hide RetireVerdict, Live;
  }

  lemma {:induction false} CleanedRetiring(sys: Sys, doomed: set<nat>, disks: nat -> Disk, n: nat, id: Id)
    ensures Cleaned(sys.store, RetireAttempts(sys, doomed, disks, n), id) <==> RetireCleans(sys, doomed, disks, n, id)
    decreases n
  {
    hide Cleaned, RetireCleans, RetireVerdict, VerdictAt, Live;
    if n == 0 {
      NothingCleaned(sys, doomed, disks, id);
    } else {
      var xs := RetireAttempts(sys, doomed, disks, n - 1);
      CleanedRetiring(sys, doomed, disks, n - 1, id);
      OneMoreCleans(sys, doomed, disks, n, id);
      if Retires(sys, doomed, n - 1) {
        CleanedOneMore(sys.store, xs, RetireAttempt(sys, n - 1, disks), id);
        RetireVerdictIs(sys, doomed, disks, n - 1);
      }
    }
  }

  lemma NothingCleaned(sys: Sys, doomed: set<nat>, disks: nat -> Disk, id: Id)
    ensures !Cleaned(sys.store, [], id) && !RetireCleans(sys, doomed, disks, 0, id)
  {
  }

  lemma {:induction false} RetireAttemptsAre(sys: Sys, doomed: set<nat>, disks: nat -> Disk, n: nat, k: nat)
    requires k < |RetireAttempts(sys, doomed, disks, n)|
    ensures exists t | 0 <= t < n :: Retires(sys, doomed, t) && RetireAttempts(sys, doomed, disks, n)[k] == RetireAttempt(sys, t, disks)
    decreases n
  {
    hide Live;
    var xs := RetireAttempts(sys, doomed, disks, n - 1);
    if k < |xs| { RetireAttemptsAre(sys, doomed, disks, n - 1, k); }
    else { assert Retires(sys, doomed, n - 1); }
  }

  /** Two undecided operations never hold the same id, so no id is tried twice. */
  lemma RetiringIsFresh(sys: Sys, doomed: set<nat>, disks: nat -> Disk, n: nat)
    requires SysInv(sys) && Retires(sys, doomed, n)
    ensures forall x | x in RetireAttempts(sys, doomed, disks, n) :: x.id != sys.ops[n].id
  {
    hide SysInv, RetireAttempts, AtRest;
    var xs := RetireAttempts(sys, doomed, disks, n);
    InvIsCore(sys);
    LiveFacts(sys, n);
    forall k | 0 <= k < |xs| ensures xs[k].id != sys.ops[n].id {
      RetireAttemptsAre(sys, doomed, disks, n, k);
      var t: nat :| t < n && Retires(sys, doomed, t) && xs[k] == RetireAttempt(sys, t, disks);
      LiveFacts(sys, t);
    }
  }

  /** The snapshot below `n`, each operation with the answer it got; every other operation untouched. */
  ghost predicate RetiredOps(sys: Sys, ops: seq<Op>, doomed: set<nat>, disks: nat -> Disk, n: nat) {
    && |ops| == |sys.ops|
    && (forall t | 0 <= t < |ops| ::
          ops[t] == if t < n && Retires(sys, doomed, t) then Invalidate(sys.ops[t], RuntimeInvalidated, RetireVerdict(sys, doomed, disks, t)) else sys.ops[t])
  }

  lemma RetiredOpsNext(sys: Sys, ops: seq<Op>, doomed: set<nat>, disks: nat -> Disk, n: nat)
    requires n > 0 && RetiredOps(sys, ops, doomed, disks, n - 1)
    ensures !Retires(sys, doomed, n - 1) ==> RetiredOps(sys, ops, doomed, disks, n)
    ensures Retires(sys, doomed, n - 1) ==>
      RetiredOps(sys, ops[n - 1 := Invalidate(sys.ops[n - 1], RuntimeInvalidated, RetireVerdict(sys, doomed, disks, n - 1))], doomed, disks, n)
  {
    hide Invalidate, RetireVerdict, Live;
  }

  lemma {:induction false} RetireBelowDoes(sys: Sys, doomed: set<nat>, n: nat, disks: nat -> Disk)
    requires SysInv(sys)
    ensures var sys' := RetireBelow(sys, doomed, n, disks);
      && DiscardedAll(sys.store, sys'.store, RetireAttempts(sys, doomed, disks, n))
      && RetiredOps(sys, sys'.ops, doomed, disks, n)
    decreases n
  {
    hide *;
    RetireBelowNext(sys, doomed, n, disks);
    if n == 0 {
      NothingRetired(sys, doomed, disks);
    } else {
      RetireBelowDoes(sys, doomed, n - 1, disks);
      RetireBelowKeeps(sys, doomed, n - 1, disks);
      RetiredOpsNext(sys, RetireBelow(sys, doomed, n - 1, disks).ops, doomed, disks, n);
      RetireOneMore(sys, RetireBelow(sys, doomed, n - 1, disks), doomed, n, disks);
    }
  }

  lemma NothingRetired(sys: Sys, doomed: set<nat>, disks: nat -> Disk)
    ensures RetireAttempts(sys, doomed, disks, 0) == []
    ensures DiscardedAll(sys.store, sys.store, []) && RetiredOps(sys, sys.ops, doomed, disks, 0)
  {
    NoAttempts(sys.store);
  }

  lemma RetireOneMore(sys: Sys, sys1: Sys, doomed: set<nat>, n: nat, disks: nat -> Disk)
    requires SysInv(sys) && SysInv(sys1) && n > 0
    requires DiscardedAll(sys.store, sys1.store, RetireAttempts(sys, doomed, disks, n - 1)) && RetiredOps(sys, sys1.ops, doomed, disks, n - 1)
    ensures var sys' := RetireNext(sys1, doomed, n - 1, disks);
      && DiscardedAll(sys.store, sys'.store, RetireAttempts(sys, doomed, disks, n))
      && sys'.ops == if Retires(sys, doomed, n - 1)
           then sys1.ops[n - 1 := Invalidate(sys.ops[n - 1], RuntimeInvalidated, RetireVerdict(sys, doomed, disks, n - 1))] else sys1.ops
  {
    hide SysInv, InvalidateOp, Invalidate, DiscardedAll, DiscardedOne, Verdict, VerdictAt, RetireVerdict, Terminal;
    var t := n - 1;
    if Retires(sys, doomed, t) {
      var xs, x := RetireAttempts(sys, doomed, disks, t), RetireAttempt(sys, t, disks);
      assert sys1.ops[t] == sys.ops[t];
      RetiringIsFresh(sys, doomed, disks, t);
      InvalidateDoes(sys1, t, RuntimeInvalidated, disks(t));
      NextVerdict(sys.store, sys1.store, xs, x);
      OneMoreAttempt(sys.store, sys1.store, RetireNext(sys1, doomed, t, disks).store, xs, x);
      RetireVerdictIs(sys, doomed, disks, t);
    } else if t in doomed && t < |sys.ops| {
      InvalidatedAlready(sys1, t, RuntimeInvalidated, disks(t));
    }
  }

  /** Retiring decided operations changes nothing. */
  lemma {:induction false} RetiringTerminal(sys: Sys, doomed: set<nat>, n: nat, disks: nat -> Disk)
    requires forall t | 0 <= t < |sys.ops| :: Terminal(sys.ops[t])
    ensures RetireBelow(sys, doomed, n, disks) == sys
    decreases n
  {
    hide InvalidateOp, RetireBelow, Terminal;
    RetireBelowNext(sys, doomed, n, disks);
    if n > 0 {
      RetiringTerminal(sys, doomed, n - 1, disks);
      if n - 1 in doomed && n - 1 < |sys.ops| { InvalidatedAlready(sys, n - 1, RuntimeInvalidated, disks(n - 1)); }
    }
  }

  /** A whole snapshot retired, in the tokens' own terms. */
  ghost predicate RetiredExactly(sys: Sys, sys': Sys, doomed: set<nat>, disks: nat -> Disk) {
    var n := |sys.ops|;
    && RetiredOps(sys, sys'.ops, doomed, disks, n)
    && (forall id :: id in sys'.store.records <==> id in sys.store.records && !RetireCleans(sys, doomed, disks, n, id))
    && (forall id | id in sys'.store.records :: sys'.store.records[id] == sys.store.records[id])
    && sys'.store.inflight == sys.store.inflight
    && (forall id :: id in sys'.store.tombstones <==> id in sys.store.tombstones || (id in sys.store.inflight && RetireCleans(sys, doomed, disks, n, id)))
    && (forall id :: id in sys'.store.ledger.live <==> id in sys.store.ledger.live && !(RetireCleans(sys, doomed, disks, n, id) && id !in sys.store.inflight))
    && sys'.store.closeRequested == sys.store.closeRequested
    && (sys'.store.unhealthy <==> sys.store.unhealthy || (!sys.store.closeRequested && exists k | 0 <= k < n :: SpoilsRetiring(sys, doomed, disks, k)))
  }

  lemma RetiredInTokens(sys: Sys, sys': Sys, doomed: set<nat>, disks: nat -> Disk)
    requires DiscardedAll(sys.store, sys'.store, RetireAttempts(sys, doomed, disks, |sys.ops|)) && RetiredOps(sys, sys'.ops, doomed, disks, |sys.ops|)
    ensures RetiredExactly(sys, sys', doomed, disks)
  {
    hide Cleaned, RetireCleans, SpoiltBefore, SpoilsRetiring, RetiredOps, RetireAttempts;
    forall id ensures Cleaned(sys.store, RetireAttempts(sys, doomed, disks, |sys.ops|), id) <==> RetireCleans(sys, doomed, disks, |sys.ops|, id) {
      CleanedRetiring(sys, doomed, disks, |sys.ops|, id);
    }
    SpoiltRetiring(sys, doomed, disks, |sys.ops|);
  }

  /**
   `invalidateController` retires every undecided operation of the lineage, each with its own answer:
   its staged file and its capacity go, unless a lease is streaming it or a deletion before it failed.
   */
  lemma FenceDoes(sys: Sys, c: Consumer, d: Controller, disks: nat -> Disk)
    requires SysInv(sys)
    ensures RetiredExactly(sys, Fence(sys, c, d, disks), OpsOfLineage(sys, c, d), disks)
  {
    hide *;
    RetireBelowDoes(sys, OpsOfLineage(sys, c, d), |sys.ops|, disks);
    RetiredInTokens(sys, RetireBelow(sys, OpsOfLineage(sys, c, d), |sys.ops|, disks), OpsOfLineage(sys, c, d), disks);
    FenceIsRetirement(sys, c, d, disks);
    RetirementSeen(sys, RetireBelow(sys, OpsOfLineage(sys, c, d), |sys.ops|, disks), Fence(sys, c, d, disks), OpsOfLineage(sys, c, d), disks);
  }

  lemma RetirementSeen(sys: Sys, a: Sys, b: Sys, doomed: set<nat>, disks: nat -> Disk)
    requires RetiredExactly(sys, a, doomed, disks) && b.ops == a.ops && b.store == a.store
    ensures RetiredExactly(sys, b, doomed, disks)
  {
    hide RetireCleans, SpoilsRetiring, RetiredOps;
  }

  lemma FenceIsRetirement(sys: Sys, c: Consumer, d: Controller, disks: nat -> Disk)
    requires SysInv(sys)
    ensures var sys' := RetireBelow(sys, OpsOfLineage(sys, c, d), |sys.ops|, disks);
      Fence(sys, c, d, disks).ops == sys'.ops && Fence(sys, c, d, disks).store == sys'.store
  {
    hide SysInv, RetireBelow, OpsOfLineage;
    var l := sys.lineage[(c, d) := Fenced];
    DoomedAlike(sys, l, c, d);
    RetireBelowCommutes(sys, OpsOfLineage(sys, c, d), |sys.ops|, disks, l, sys.closed, sys.snapshot);
  }

  /** `close` retires everything tracked in the same way, before the store is asked. */
  lemma RetirementDoes(sys: Sys, disks: nat -> Disk)
    requires SysInv(sys)
    ensures RetiredExactly(sys, Retired(sys, disks), sys.tracked, disks)
  {
    hide *;
    RetireBelowDoes(sys, sys.tracked, |sys.ops|, disks);
    RetiredInTokens(sys, RetireBelow(sys, sys.tracked, |sys.ops|, disks), sys.tracked, disks);
    RetiredIsRetirement(sys, disks);
    RetirementSeen(sys, RetireBelow(sys, sys.tracked, |sys.ops|, disks), Retired(sys, disks), sys.tracked, disks);
  }

  lemma RetiredIsRetirement(sys: Sys, disks: nat -> Disk)
    requires SysInv(sys)
    ensures var sys' := RetireBelow(sys, sys.tracked, |sys.ops|, disks);
      Retired(sys, disks).ops == sys'.ops && Retired(sys, disks).store == sys'.store
  {
    hide SysInv, RetireBelow;
    assert sys.(closed := true, snapshot := sys.tracked) == Flagged(sys, sys.lineage, true, sys.tracked);
    RetireBelowCommutes(sys, sys.tracked, |sys.ops|, disks, sys.lineage, true, sys.tracked);
  }

  // -- the lineage discard --------------------------------------------------------------------------

  predicate SpoilsDiscarding(s: Store, order: seq<Id>, fs: Id -> Disk, k: nat)
    requires k < |order|
  {
    Spoils(s, Attempt(order[k], fs(order[k]).outer))
  }

  /** What the `k`-th artifact of a lineage answers, in the terms of the store the fence left. */
  function DiscardVerdict(s: Store, order: seq<Id>, fs: Id -> Disk, k: nat): Answer
    requires k < |order|
  {
    if s.closeRequested then Refused
    else if s.unhealthy || (exists j | 0 <= j <= k :: SpoilsDiscarding(s, order, fs, j)) then Failed
    else if Leased(s, order[k]) then Refused
    else Clean
  }

  lemma DiscardVerdictIs(s: Store, order: seq<Id>, fs: Id -> Disk, k: nat)
    requires k < |order|
    ensures VerdictAt(s, AttemptsOn(order, fs), k) == DiscardVerdict(s, order, fs, k)
  {
    var xs := AttemptsOn(order, fs);
    forall j: nat | j < |order| ensures Spoils(s, xs[j]) <==> SpoilsDiscarding(s, order, fs, j) {
    }
  }

  /**
   What a lineage discard leaves of the `k`-th artifact, by its own answer: with a clean one nothing,
   anywhere; with any other one everything.
   */
  ghost predicate LeftExactly(sys': Sys, id: Id, a: Answer) {
    && (id in sys'.store.records <==> a != Clean)
    && (id in sys'.owners <==> a != Clean)
    && (id in sys'.reserved <==> a != Clean)
    && (id in sys'.store.ledger.live <==> a != Clean)
  }

  lemma {:induction false} CleanedIsAnswered(s: Store, xs: seq<Attempt>, k: nat)
    requires k < |xs| && Distinct(xs)
    ensures Cleaned(s, xs, xs[k].id) <==> VerdictAt(s, xs, k) == Clean
  {
    hide VerdictAt;
  }

  lemma LeftInStore(s: Store, s': Store, xs: seq<Attempt>, k: nat)
    requires DiscardedAll(s, s', xs) && k < |xs| && Distinct(xs)
    requires xs[k].id in s.records && xs[k].id !in s.inflight && xs[k].id in s.ledger.live
    ensures xs[k].id in s'.records <==> VerdictAt(s, xs, k) != Clean
    ensures xs[k].id in s'.ledger.live <==> VerdictAt(s, xs, k) != Clean
  {
    hide VerdictAt, Cleaned, SpoiltBefore;
    CleanedIsAnswered(s, xs, k);
  }

  lemma AllAnswered(s: Store, sys': Sys, answers: seq<Answer>, xs: seq<Attempt>, order: seq<Id>)
    requires EachAnswered(s, sys', answers, xs, 0, order)
    ensures |answers| == |order|
  {
    hide DiscardedAll;
  }

  lemma AnsweredIsLeft(s: Store, sys': Sys, answers: seq<Answer>, order: seq<Id>, fs: Id -> Disk, k: nat)
    requires SysInv(sys') && k < |order| && (forall i, j | 0 <= i < j < |order| :: order[i] != order[j])
    requires EachAnswered(s, sys', answers, AttemptsOn(order, fs), 0, order)
    requires order[k] in s.records && order[k] !in s.inflight && order[k] in s.ledger.live
    ensures |answers| == |order| && answers[k] == DiscardVerdict(s, order, fs, k) && LeftExactly(sys', order[k], answers[k])
  {
    hide SysInv, VerdictAt, DiscardVerdict, DiscardedAll;
    DiscardVerdictIs(s, order, fs, k);
    LeftInStore(s, sys'.store, AttemptsOn(order, fs), k);
    if order[k] in sys'.owners { OwnerIsDecided(sys', order[k]); }
  }

  lemma OwnedIsStored(sys: Sys, id: Id)
    requires SysInv(sys) && id in sys.owners && !SweptClean(sys.store)
    ensures id in sys.store.records && id !in sys.store.inflight && id in sys.store.ledger.live
  {
    hide SysInv;
    OwnerIsDecided(sys, id);
    InvIsCore(sys);
    RecordIsPaid(sys.store, id);
  }

  lemma RecordIsPaid(s: Store, id: Id)
    requires AtRest(s) && id in s.records
    ensures id in s.ledger.live
  {
    hide Conserved, CloseOnce, Permitted, PermitModel.Resting;
    assert RecordPaid(s, id);
  }

  lemma FenceFrame(sys: Sys, c: Consumer, d: Controller, disks: nat -> Disk)
    ensures var sys' := Fence(sys, c, d, disks); sys'.poisoned == sys.poisoned && SweptClean(sys'.store) == SweptClean(sys.store)
  {
    hide RetireBelow;
    var sys1 := sys.(lineage := sys.lineage[(c, d) := Fenced]);
    RetireBelowFixed(sys1, OpsOfLineage(sys1, c, d), |sys.ops|, disks);
  }

  function Overall(answers: seq<Answer>): Answer {
    if Failed in answers then Failed else if Refused in answers then Refused else Clean
  }

  /**
   `discardController`, exactly. Every artifact of the lineage gets its own attempt and its own answer,
   and what is left of it is decided by that answer alone; the whole answers failed if one failed,
   refused if none failed and one is being streamed, clean otherwise.
   */
  lemma DiscardLineageIsExact(sys: Sys, c: Consumer, d: Controller, disks: nat -> Disk, order: seq<Id>, fs: Id -> Disk)
    requires SysInv(sys) && Lists(order, ArtifactsOfLineage(sys, c, d)) && !SweptClean(sys.store)
    ensures var (sys', a) := DiscardLineage(sys, c, d, disks, order, fs);
      var s := Fence(sys, c, d, disks).store;
      var answers := DiscardEach(Fence(sys, c, d, disks), order, fs).1;
      && |answers| == |order| && a == Overall(answers)
      && (forall k | 0 <= k < |order| :: answers[k] == DiscardVerdict(s, order, fs, k) && LeftExactly(sys', order[k], answers[k]))
      && (sys'.poisoned <==> sys.poisoned || a == Failed)
  {
    hide SysInv, Fence, DiscardEach, EachAnswered, DiscardVerdict, DiscardedAll, SweptClean, OfLineage;
    FenceKeeps(sys, c, d, disks);
    FenceFrame(sys, c, d, disks);
    var sys1 := Fence(sys, c, d, disks);
    DiscardEachFixed(sys1, order, fs);
    NoAttempts(sys1.store);
    EachIsAttempted(sys1.store, sys1, [], order, fs);
    var (sys2, answers) := DiscardEach(sys1, order, fs);
    assert [] + AttemptsOn(order, fs) == AttemptsOn(order, fs);
    AllAnswered(sys1.store, sys2, answers, AttemptsOn(order, fs), order);
    forall k | 0 <= k < |order| ensures |answers| == |order| && answers[k] == DiscardVerdict(sys1.store, order, fs, k) && LeftExactly(sys2, order[k], answers[k]) {
      OwnedIsStored(sys1, order[k]);
      AnsweredIsLeft(sys1.store, sys2, answers, order, fs, k);
    }
  }

  lemma StreamedAlike(sys: Sys, c: Consumer, d: Controller, disks: nat -> Disk, id: Id)
    requires SysInv(sys) && id in sys.owners && !SweptClean(sys.store)
    ensures Leased(Fence(sys, c, d, disks).store, id) == Leased(sys.store, id)
  {
    hide SysInv, Fence, SweptClean, RetireCleans, SpoilsRetiring, OpsOfLineage, RetiredOps;
    FenceKeeps(sys, c, d, disks);
    FenceFrame(sys, c, d, disks);
    FenceDoes(sys, c, d, disks);
    OwnedIsStored(Fence(sys, c, d, disks), id);
  }

  lemma UnfailedVerdict(s: Store, order: seq<Id>, fs: Id -> Disk, k: nat)
    requires k < |order| && !s.closeRequested && DiscardVerdict(s, order, fs, k) != Failed
    ensures DiscardVerdict(s, order, fs, k) == if Leased(s, order[k]) then Refused else Clean
  {
  }

  lemma FenceLeavesCloseAlone(sys: Sys, c: Consumer, d: Controller, disks: nat -> Disk)
    requires SysInv(sys)
    ensures Fence(sys, c, d, disks).store.closeRequested == sys.store.closeRequested
  {
    hide SysInv, Fence, RetireCleans, SpoilsRetiring, OpsOfLineage, RetiredOps;
    FenceDoes(sys, c, d, disks);
  }

  /**
   In an open store, unless some deletion failed: an artifact of the lineage is left, with its owner
   entry, its id and its capacity, if and only if it was being streamed.
   */
  lemma OnlyStreamedIsLeft(sys: Sys, c: Consumer, d: Controller, disks: nat -> Disk, order: seq<Id>, fs: Id -> Disk, id: Id)
    requires SysInv(sys) && Lists(order, ArtifactsOfLineage(sys, c, d)) && !sys.store.closeRequested
    requires id in ArtifactsOfLineage(sys, c, d)
    ensures var (sys', a) := DiscardLineage(sys, c, d, disks, order, fs);
      a != Failed ==>
        && (id in sys'.store.records <==> Leased(sys.store, id))
        && (id in sys'.owners <==> Leased(sys.store, id))
        && (id in sys'.reserved <==> Leased(sys.store, id))
        && (id in sys'.store.ledger.live <==> Leased(sys.store, id))
  {
    hide SysInv, Fence, DiscardEach, DiscardLineage, DiscardVerdict, SweptClean, Leased;
    UnsweptWhileOpen(sys);
    DiscardLineageIsExact(sys, c, d, disks, order, fs);
    var k: nat :| k < |order| && order[k] == id;
    var s := Fence(sys, c, d, disks).store;
    var answers := DiscardEach(Fence(sys, c, d, disks), order, fs).1;
    FenceLeavesCloseAlone(sys, c, d, disks);
    StreamedAlike(sys, c, d, disks, id);
    assert answers[k] in answers;
    if answers[k] != Failed { UnfailedVerdict(s, order, fs, k); }
  }

  // -- a lease completing ---------------------------------------------------------------------------

  /** In a completion too the notification of a decided artifact leaves the store alone. */
  lemma CompletionIsDirect(sys: Sys, lease: Lease, id: Id, d: Disk)
    requires Decided(sys, id)
    ensures CompleteLease(sys, lease, id, d).store == Completed(sys.store, lease, id, d.outer)
  {
    hide Notify, DeletePhysical, Forget, FreeCommitted, Notifies, Decided, BeginCompletion, EndCompletion, MarkUnhealthy;
    var sys1 := sys.(store := BeginCompletion(sys.store, lease, id));
    var (st, del) := DeletePhysical(sys1.store, id, d.outer);
    if del.Some? {
      assert Decided(sys.(store := Forget(st, id, del.value)), id) by { DecidedIgnoresStore(sys, Forget(st, id, del.value), id); }
      DecidedIsOnlyTold(sys.(store := Forget(st, id, del.value)), id, d.nested);
    }
  }

  lemma DecidedIgnoresStore(sys: Sys, st: Store, id: Id)
    requires Decided(sys, id)
    ensures Decided(sys.(store := st), id)
  {
  }

  lemma CompletionTells(sys: Sys, lease: Lease, id: Id, d: Disk)
    requires id in sys.store.records && !sys.store.identityLost && Good(d.outer)
    ensures var sys0 := sys.(store := BeginCompletion(sys.store, lease, id));
      var sys1 := Notify(Untold(sys0, id, d), id, false, d.nested); var sys' := CompleteLease(sys, lease, id, d);
      sys'.ops == sys1.ops && sys'.reserved == sys1.reserved && sys'.owners == sys1.owners
  {
    hide Notify, FreeCommitted, DeletePhysical, Forget, EndCompletion;
    var sys0 := sys.(store := BeginCompletion(sys.store, lease, id));
    DeletionFound(sys0.store, id, d.outer);
    GoodDeletes(sys0.store, id, d.outer);
    var (st, del) := DeletePhysical(sys0.store, id, d.outer);
    assert Notifies(del.value);
    assert DiscardOwned(sys0, id, d).0 == LogicalHalf(sys0.(store := st), id, del.value, d.nested);
    assert Untold(sys0, id, d) == sys0.(store := Forget(st, id, del.value));
  }

  lemma GoodDeletes(s: Store, id: Id, fs: Fs)
    requires !s.identityLost && Good(fs)
    ensures DeletePhysical(s, id, fs).1.Some?
  {
    hide RunSettle;
  }

  /**
   A completed lease whose file can be deleted ends everything about its artifact: the record, the
   capacity, the owner entry, the id, the operation; and the permit goes to the first in the queue.
   One whose file cannot be poisons the store and refuses the queue.
   */
  lemma CompletionDoes(sys: Sys, lease: Lease, id: Id, d: Disk)
    requires SysInv(sys) && !Closing(sys.store) && lease in sys.store.permit.unfinished && sys.store.permit.heldId == Some(id)
    requires id in sys.owners
    ensures var sys' := CompleteLease(sys, lease, id, d);
      if Good(d.outer)
      then
        && !sys'.store.unhealthy && sys'.store.records == sys.store.records - {id}
        && sys'.store.ledger.live.Keys == sys.store.ledger.live.Keys - {id} && PassedOn(sys.store.permit, sys'.store.permit)
        && id !in sys'.owners && id !in sys'.reserved
        && id in sys.reserved && sys.reserved[id] < |sys'.ops| && sys'.ops[sys.reserved[id]].released
      else
        sys'.store.unhealthy && sys'.store.records == sys.store.records && AllRefused(sys.store.permit, sys'.store.permit)
  {
    hide SysInv, CompleteLease, Completed, Decided, PassedOn, AllRefused, AtRest, StoreInv, Notify, AwaitsDeletion, SweptClean, BeginCompletion, Untold;
    OwnerIsDecided(sys, id);
    InvIsCore(sys);
    CompletionIsDirect(sys, lease, id, d);
    CompletionIsExact(sys.store, lease, id, d.outer);
    if Good(d.outer) {
      UnsweptWhileOpen(sys);
      OwnerAwaitsDeletion(sys, id);
      AtRestIsStoreInv(sys.store);
      HealthyIsProvable(sys.store);
      CompletionTells(sys, lease, id, d);
      var sys0 := sys.(store := BeginCompletion(sys.store, lease, id));
      UntoldIsItself(sys0, id, d);
      ToldIsFreed(Untold(sys0, id, d), id, d.nested);
      CompletionDisowns(sys, lease, id, d);
    }
  }

  lemma CompletionDisowns(sys: Sys, lease: Lease, id: Id, d: Disk)
    requires SysInv(sys) && !Closing(sys.store) && lease in sys.store.permit.unfinished && sys.store.permit.heldId == Some(id)
    requires id !in CompleteLease(sys, lease, id, d).reserved
    ensures id !in CompleteLease(sys, lease, id, d).owners
  {
    hide SysInv, CompleteLease;
    CompleteLeaseKeeps(sys, lease, id, d);
    if id in CompleteLease(sys, lease, id, d).owners { OwnerIsDecided(CompleteLease(sys, lease, id, d), id); }
  }

  // -- one operation at a time ----------------------------------------------------------------------

  /** The store's answer to whatever discard a step of operation `t` makes. */
  function AnswerTo(sys: Sys, t: nat, d: Disk): Answer
    requires t < |sys.ops|
  {
    Verdict(sys.store, sys.ops[t].id, d.outer)
  }

  lemma CountingFirst(sys: Sys, t: nat)
    requires SysInv(sys) && t < |sys.ops| && sys.ops[t].state == Open && sys.ops[t].events > 0
    ensures var op' := sys.ops[t].(events := sys.ops[t].events + 1); SysInv(sys.(ops := sys.ops[t := op'])) && Live(op')
  {
    hide OpInv, SysInv, SysCore, Agrees, Sound, StoreInv, AtRest, IdOk, Land, Alike, Follows;
    InvIsCore(sys);
    TokenIsOk(sys, t);
    var op' := sys.ops[t].(events := sys.ops[t].events + 1);
    CountedAlike(sys.ops[t]);
    AlikeKeeps(sys, t, op');
    LandingUnreleased(sys, t, op');
  }

  /** A registration is the operation's own, with the store's answer: a second event retires it, and its staged file goes. */
  lemma RegisterDoes(sys: Sys, t: nat, d: Disk)
    requires SysInv(sys) && t < |sys.ops|
    ensures var (sys', receipt) := RegisterDownload(sys, t, d); var op := sys.ops[t];
      && (sys'.ops, receipt) == (sys.ops[t := Register(op, AnswerTo(sys, t, d)).0], Register(op, AnswerTo(sys, t, d)).1)
      && (if op.state == Open && op.events > 0 then DiscardedOne(sys.store, sys'.store, op.id, AnswerTo(sys, t, d)) else sys'.store == sys.store)
  {
    hide SysInv, InvalidateOp, Invalidate, DiscardedOne, Verdict, Register;
    RegisterIs(sys, t, d);
    if sys.ops[t].state == Open && sys.ops[t].events > 0 { SecondEventDoes(sys, t, d); }
  }

  lemma RegisterIs(sys: Sys, t: nat, d: Disk)
    requires t < |sys.ops|
    ensures var op := sys.ops[t]; var counted := op.(events := op.events + 1); var a := AnswerTo(sys, t, d);
      if op.state == Open && op.events > 0
      then RegisterDownload(sys, t, d) == (InvalidateOp(sys.(ops := sys.ops[t := counted]), t, MultipleArtifacts, d), false)
        && Register(op, a) == (Invalidate(counted, MultipleArtifacts, a), false)
      else RegisterDownload(sys, t, d) == (sys.(ops := sys.ops[t := Register(op, Clean).0]), Register(op, Clean).1) && Register(op, a) == Register(op, Clean)
  {
    hide InvalidateOp, Invalidate, Verdict;
  }

  lemma SecondEventDoes(sys: Sys, t: nat, d: Disk)
    requires SysInv(sys) && t < |sys.ops| && sys.ops[t].state == Open && sys.ops[t].events > 0
    ensures var op := sys.ops[t]; var counted := op.(events := op.events + 1); var a := AnswerTo(sys, t, d);
      var sys' := InvalidateOp(sys.(ops := sys.ops[t := counted]), t, MultipleArtifacts, d);
      sys'.ops == sys.ops[t := Invalidate(counted, MultipleArtifacts, a)] && DiscardedOne(sys.store, sys'.store, op.id, a)
  {
    hide SysInv, InvalidateOp, Invalidate, DiscardedOne, Verdict;
    var op := sys.ops[t];
    var counted := op.(events := op.events + 1);
    CountingFirst(sys, t);
    var sys1 := sys.(ops := sys.ops[t := counted]);
    InvalidateDoes(sys1, t, MultipleArtifacts, d);
    var op' := Invalidate(counted, MultipleArtifacts, AnswerTo(sys, t, d));
    assert sys1.ops[t := op'] == sys.ops[t := op'];
  }

  lemma InvalidateOrNot(sys: Sys, t: nat, reason: Reason, d: Disk)
    requires SysInv(sys) && t < |sys.ops|
    ensures var sys' := InvalidateOp(sys, t, reason, d);
      && sys'.ops == sys.ops[t := Invalidate(sys.ops[t], reason, AnswerTo(sys, t, d))]
      && (if Live(sys.ops[t]) then DiscardedOne(sys.store, sys'.store, sys.ops[t].id, AnswerTo(sys, t, d)) else sys'.store == sys.store)
  {
    hide SysInv, InvalidateOp, DiscardedOne, Verdict, Retire, Answered, TryRelease;
    if Live(sys.ops[t]) {
      InvalidateDoes(sys, t, reason, d);
    } else {
      InvalidatedAlready(sys, t, reason, d);
      assert sys.ops[t := sys.ops[t]] == sys.ops;
    }
  }

  /** Accessors that failed or were stopped end the staging and retire the operation, with the store's answer. */
  lemma AccessorsDo(sys: Sys, t: nat, d: Disk)
    requires SysInv(sys) && t < |sys.ops| && sys.ops[t].job == Asking
    ensures var sys' := AccessorsEndAt(sys, t, d);
      && sys'.ops == sys.ops[t := AccessorsOver(sys.ops[t], AnswerTo(sys, t, d))]
      && (Live(sys.ops[t]) ==> DiscardedOne(sys.store, sys'.store, sys.ops[t].id, AnswerTo(sys, t, d)))
  {
    hide SysInv, InvalidateOp, Invalidate, DiscardedOne, Verdict, EndStage;
    InvalidateOrNot(sys, t, CaptureFailed, d);
  }

  /** A copy is started exactly when the store admits it and its staging went well. */
  lemma StartDoes(sys: Sys, t: nat, o: StageOutcome)
    requires SysInv(sys) && t < |sys.ops| && sys.ops[t].job == Asking && Live(sys.ops[t]) && Bounded(o)
    ensures var sys' := StartCapture(sys, t, o); var op := sys.ops[t];
      sys'.ops == sys.ops[t := if CaptureAdmitted(sys.store, op.id, op.owner.consumer) && o.StagedOk? then BeginCapture(op)
                               else CaptureSettled(BeginCapture(op), false)]
  {
    hide SysCore, AtRest, CaptureBegin, CaptureAdmitted, Sound, Agrees, BeginCapture, Bounded, OnlyCapture;
    LiveFacts(sys, t);
    TokenIsOk(sys, t);
    NotCapturing(sys, t);
    CaptureBeginKeeps(sys.store, sys.ops[t].id, sys.ops[t].owner.consumer, o);
  }

  lemma HoldsItsId(sys: Sys, t: nat)
    requires SysInv(sys) && t < |sys.ops| && !sys.ops[t].released
    ensures sys.ops[t].id in sys.reserved && sys.reserved[sys.ops[t].id] == t
  {
    hide StoreInv, AtRest, OpInv;
    assert TokenOk(sys, t);
  }

  /**
   The staging continuation. In time it keeps the artifact; a copy that failed retires the operation; one
   that arrives after the decision is discarded, record and capacity, and the operation told the answer.
   */
  lemma DeliverDoes(sys: Sys, t: nat, d: Disk)
    requires SysInv(sys) && t < |sys.ops| && sys.ops[t].job.Captured?
    ensures var sys' := DeliverCapture(sys, t, d); var op := sys.ops[t]; var a := AnswerTo(sys, t, d);
      && (Live(op) ==> sys'.ops == sys.ops[t := Deliver(op, a)])
      && (Live(op) && op.job.available ==> sys'.store == sys.store)
      && (Live(op) && !op.job.available ==> DiscardedOne(sys.store, sys'.store, op.id, a))
      && (!Live(op) && op.job.available ==> DiscardedOne(sys.store, sys'.store, op.id, a))
      && |sys'.ops| == |sys.ops| && sys'.ops[t].job == Ending
  {
    hide SysInv, DeliverCapture, DiscardedOne, Deliver, AnswerTo;
    if Live(sys.ops[t]) { DeliverLiveDoes(sys, t, d); } else { DeliverLateDoes(sys, t, d); }
  }

  lemma DeliverLiveDoes(sys: Sys, t: nat, d: Disk)
    requires SysInv(sys) && t < |sys.ops| && sys.ops[t].job.Captured? && Live(sys.ops[t])
    ensures var sys' := DeliverCapture(sys, t, d); var op := sys.ops[t]; var a := AnswerTo(sys, t, d);
      && sys'.ops == sys.ops[t := Deliver(op, a)]
      && (if op.job.available then sys'.store == sys.store else DiscardedOne(sys.store, sys'.store, op.id, a))
      && |sys'.ops| == |sys.ops| && sys'.ops[t].job == Ending
  {
    hide SysInv, InvalidateOp, Invalidate, DiscardedOne, Verdict, EndStage;
    var op := sys.ops[t];
    EndsStage(if op.job.available then op.(provisional := true) else Invalidate(op, StoreFailure, AnswerTo(sys, t, d)));
    if !op.job.available { InvalidateOrNot(sys, t, StoreFailure, d); }
  }

  lemma EndsStage(op: Op)
    ensures EndStage(op).job == Ending
  {
  }

  lemma DeliverLateDoes(sys: Sys, t: nat, d: Disk)
    requires SysInv(sys) && t < |sys.ops| && sys.ops[t].job.Captured? && !Live(sys.ops[t])
    ensures var sys' := DeliverCapture(sys, t, d); var op := sys.ops[t];
      && (op.job.available ==> DiscardedOne(sys.store, sys'.store, op.id, AnswerTo(sys, t, d)))
      && |sys'.ops| == |sys.ops| && sys'.ops[t].job == Ending
  {
    hide SysInv, Discard, DiscardedOne, Verdict, EndStage, Answered;
    var op := sys.ops[t];
    var (sys1, a) := Discard(sys, op.id, d);
    EndsStage(op);
    if op.job.available {
      CapturingIsUnreleased(sys, t);
      HoldsItsId(sys, t);
      DiscardDoes(sys, op.id, d);
      DiscardKeeps(sys, op.id, d);
      OnlyIdAt(sys, sys1, op.id, t);
      EndsStage(Answered(sys1.ops[t], a));
    }
  }

  /** The driver's answer for its copy: confirmed, it stops being waited for; not, the runtime is poisoned and lets the operation go for good. */
  lemma CleanupDoes(sys: Sys, t: nat, confirmed: bool)
    requires SysInv(sys) && t < |sys.ops| && sys.ops[t].cleanup == Running
    ensures var sys' := CleanupSettlesAt(sys, t, confirmed);
      && |sys'.ops| == |sys.ops| && sys'.ops[t] == FinishCleanup(sys.ops[t], confirmed)
      && sys'.ops[t].cleanup == (if confirmed then Confirmed else CleanupFailed)
      && (sys'.poisoned <==> sys.poisoned || !confirmed)
      && (!confirmed ==> t !in sys'.tracked && !sys'.ops[t].released && sys'.ops[t].id in sys'.reserved)
  {
    hide SysInv, Land, TryRelease;
    var op := sys.ops[t];
    LandOps(sys, t, FinishCleanup(op, confirmed));
    LandChangesBooksOnly(sys, t, FinishCleanup(op, confirmed));
    CleanupConfirms(op, confirmed);
    CleanupSettlesKeeps(sys, t, confirmed);
    RunningIsUnreleased(sys, t);
    if !confirmed { HoldsItsId(CleanupSettlesAt(sys, t, confirmed), t); }
  }

  lemma CleanupConfirms(op: Op, confirmed: bool)
    requires op.cleanup == Running
    ensures FinishCleanup(op, confirmed).cleanup == (if confirmed then Confirmed else CleanupFailed)
    ensures !confirmed ==> FinishCleanup(op, confirmed).released == op.released
  {
  }

  lemma RunningIsUnreleased(sys: Sys, t: nat)
    requires SysInv(sys) && t < |sys.ops| && sys.ops[t].cleanup == Running
    ensures !sys.ops[t].released
  {
    hide StoreInv, AtRest, Agrees;
    assert TokenOk(sys, t);
  }
}
