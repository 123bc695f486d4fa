/**
 `ArtifactRuntime` of `src/artifacts/index.ts` over its operations and its store: the id reservations,
 the owner ledger, drive lineages, poison, and the ordered close.

 A token is an index into `ops`, in creation order. `tracked` is the source's `#operations` map; an
 operation dropped from it still exists and still holds its id. Each function is one synchronous
 segment, callbacks included: the store notifies an operation in the middle of a discard, and that
 operation discards again before the outer discard finishes.
 */
module RuntimeModel {
  import opened Common
  import opened ReservationLedger
  import opened PermitModel
  import opened OperationModel
  import opened StoreModel

  datatype Lineage = Active | Fenced

  datatype Entry = Entry(token: nat, owner: Owner)

  datatype Sys = Sys(
    store: Store,
    reserved: map<Id, nat>,
    ops: seq<Op>,
    tracked: set<nat>,
    owners: map<Id, Entry>,
    lineage: map<(Consumer, Controller), Lineage>,
    closed: bool,
    poisoned: bool,
    asked: map<Ticket, (Id, Consumer)>,
    snapshot: set<nat>,
    settled: bool)

  function EmptySys(limits: Limits): Sys {
    Sys(EmptyStore(limits), map[], [], {}, map[], map[], false, false, map[], {}, false)
  }

  /** What the file system does to a discard and to the one nested in its notification. */
  datatype Disk = Disk(outer: Fs, nested: Fs)

  predicate FencedOwner(sys: Sys, o: Owner) {
    o.DriveOwned? && (o.consumer, o.controller) in sys.lineage && sys.lineage[(o.consumer, o.controller)] == Fenced
  }

  /** Store an operation's new state; a release runs the token-bound closure `createOperation` installed. */
  function Land(sys: Sys, t: nat, op: Op): Sys
    requires t < |sys.ops|
  {
    var sys1 := sys.(ops := sys.ops[t := op]);
    if !op.released || sys.ops[t].released then sys1
    else sys1.(
      reserved := if op.id in sys.reserved && sys.reserved[op.id] == t then sys.reserved - {op.id} else sys.reserved,
      owners := if op.id in sys.owners && sys.owners[op.id].token == t then sys.owners - {op.id} else sys.owners,
      tracked := sys.tracked - {t})
  }

  function Create(sys: Sys, owner: Owner, id: Id): (Sys, bool) {
    if sys.closed || sys.poisoned || FencedOwner(sys, owner) || id in sys.reserved then (sys, false)
    else
      (sys.(reserved := sys.reserved[id := |sys.ops|],
            ops := sys.ops + [NewOp(id, owner)],
            tracked := sys.tracked + {|sys.ops|},
            lineage := if owner.DriveOwned? && (owner.consumer, owner.controller) !in sys.lineage
                       then sys.lineage[(owner.consumer, owner.controller) := Active] else sys.lineage), true)
  }

  /** `onDiscard`: the token-bound operation reacts, discarding its own staged file on the way. */
  function Notify(sys: Sys, id: Id, closeOwned: bool, nested: Fs): Sys {
    if id !in sys.reserved || sys.reserved[id] !in sys.tracked || sys.reserved[id] >= |sys.ops| then sys
    else
      var t := sys.reserved[id];
      if Terminal(sys.ops[t]) then Land(sys, t, NoteDiscarded(sys.ops[t], closeOwned, Clean))
      else
        var (st, a) := QuietDiscard(sys.store, id, nested);
        Land(sys.(store := st), t, NoteDiscarded(sys.ops[t], closeOwned, a))
  }

  /** Forget the record, announce it if there is anything to announce, then give the capacity back. */
  function LogicalHalf(sys: Sys, id: Id, d: Deleted, nested: Fs): Sys {
    var sys1 := sys.(store := Forget(sys.store, id, d));
    var sys2 := if Notifies(d) then Notify(sys1, id, false, nested) else sys1;
    sys2.(store := FreeCommitted(sys2.store, id))
  }

  /** Identity-bound cleanup: physical, and only once that is proven, logical. */
  function DiscardOwned(sys: Sys, id: Id, d: Disk): (Sys, bool) {
    var (st, del) := DeletePhysical(sys.store, id, d.outer);
    var sys1 := sys.(store := st);
    if del.None? then (sys1, false) else (LogicalHalf(sys1, id, del.value, d.nested), true)
  }

  function Discard(sys: Sys, id: Id, d: Disk): (Sys, Answer) {
    if Gate(sys.store, id).Some? then (sys, Gate(sys.store, id).value)
    else
      var (sys1, ok) := DiscardOwned(sys, id, d);
      (sys1, if ok then Clean else Failed)
  }

  /** `invalidate`, its store discard and its release. */
  function InvalidateOp(sys: Sys, t: nat, reason: Reason, d: Disk): Sys
    requires t < |sys.ops|
  {
    var op := sys.ops[t];
    if Terminal(op) then sys
    else
      var (sys1, a) := Discard(sys.(ops := sys.ops[t := Retire(op, reason)]), op.id, d);
      if t >= |sys1.ops| then sys1
      else Land(sys1, t, TryRelease(Answered(sys1.ops[t], a)))
  }

  function RegisterDownload(sys: Sys, t: nat, d: Disk): (Sys, bool)
    requires t < |sys.ops|
  {
    var op := sys.ops[t];
    if op.state == Open && op.events > 0 then
      (InvalidateOp(sys.(ops := sys.ops[t := op.(events := op.events + 1)]), t, MultipleArtifacts, d), false)
    else (sys.(ops := sys.ops[t := Register(op, Clean).0]), Register(op, Clean).1)
  }

  /** After any step that may have ended the staging body. */
  function EndStageAt(sys: Sys, t: nat): Sys
  {
    if t < |sys.ops| then sys.(ops := sys.ops[t := EndStage(sys.ops[t])]) else sys
  }

  function AccessorsEndAt(sys: Sys, t: nat, d: Disk): Sys
    requires t < |sys.ops|
  {
    EndStageAt(InvalidateOp(sys, t, CaptureFailed, d), t)
  }

  function StartCapture(sys: Sys, t: nat, o: StageOutcome): Sys
    requires t < |sys.ops| && sys.ops[t].job == Asking && !Terminal(sys.ops[t]) && Bounded(o)
  {
    var op := sys.ops[t];
    var (st, r) := CaptureBegin(sys.store, op.id, op.owner.consumer, o);
    var op1 := BeginCapture(op);
    sys.(store := st, ops := sys.ops[t := if r == Pending then op1 else CaptureSettled(op1, false)])
  }

  /** Close-owned notifications, one per swept record; the closing store refuses every nested discard. */
  function NotifySwept(sys: Sys, ids: seq<Id>): Sys
    decreases |ids|
  {
    if ids == [] then sys else NotifySwept(Notify(sys, ids[0], true, Fs(false, false)), ids[1..])
  }

  /** A capture segment ended, perhaps owing the store its close. */
  function CaptureSegment(sys: Sys, t: nat, st: Store, r: CaptureResult, o: CloseFs): Sys
    requires t < |sys.ops| && sys.ops[t].job == Capturing
  {
    if r == Pending then sys.(store := st)
    else
      var sys1 := sys.(ops := sys.ops[t := CaptureSettled(sys.ops[t], r == Published)]);
      var (st1, told) := AfterCapture(st, o);
      NotifySwept(sys1.(store := st1), told)
  }

  function DeliverCapture(sys: Sys, t: nat, d: Disk): Sys
    requires t < |sys.ops| && sys.ops[t].job.Captured?
  {
    var op := sys.ops[t];
    if Terminal(op) then
      if op.job.available then
        var (sys1, a) := Discard(sys, op.id, d);
        if t < |sys1.ops| then sys1.(ops := sys1.ops[t := EndStage(Answered(sys1.ops[t], a))]) else sys1
      else EndStageAt(sys, t)
    else if op.job.available then sys.(ops := sys.ops[t := EndStage(op.(provisional := true))])
    else EndStageAt(InvalidateOp(sys, t, StoreFailure, d), t)
  }

  /** The owner ledger is written only here, inside the legal sealing -> committed(available) transition. */
  function CommitAt(sys: Sys, t: nat): Sys
    requires t < |sys.ops| && sys.ops[t].state == Sealing && sys.ops[t].active == 0
  {
    var op := sys.ops[t];
    var sys1 := if CommitOutcome(op) == Available then sys.(owners := sys.owners[op.id := Entry(t, op.owner)]) else sys;
    Land(sys1, t, Commit(op))
  }

  function CleanupSettlesAt(sys: Sys, t: nat, confirmed: bool): Sys
    requires t < |sys.ops|
  {
    var op := sys.ops[t];
    var sys1 := Land(sys, t, FinishCleanup(op, confirmed));
    if op.cleanup == Running && !confirmed then sys1.(poisoned := true, tracked := sys1.tracked - {t}) else sys1
  }

  /** Retire, in creation order, the operations of a snapshot. */
  function RetireBelow(sys: Sys, doomed: set<nat>, n: nat, disks: nat -> Disk): Sys {
    if n == 0 then sys
    else
      var sys1 := RetireBelow(sys, doomed, n - 1, disks);
      if n - 1 in doomed && n - 1 < |sys1.ops| then InvalidateOp(sys1, n - 1, RuntimeInvalidated, disks(n - 1)) else sys1
  }

  predicate OfLineage(o: Owner, c: Consumer, d: Controller) { o == DriveOwned(c, d) }

  function OpsOfLineage(sys: Sys, c: Consumer, d: Controller): set<nat> {
    set t | t in sys.tracked && t < |sys.ops| && OfLineage(sys.ops[t].owner, c, d)
  }

  /** `invalidateController`: the fence goes up first, then every generation of the lineage is retired. */
  function Fence(sys: Sys, c: Consumer, d: Controller, disks: nat -> Disk): Sys {
    var sys1 := sys.(lineage := sys.lineage[(c, d) := Fenced]);
    RetireBelow(sys1, OpsOfLineage(sys1, c, d), |sys.ops|, disks)
  }

  function ArtifactsOfLineage(sys: Sys, c: Consumer, d: Controller): set<Id> {
    set id | id in sys.owners && OfLineage(sys.owners[id].owner, c, d)
  }

  /** One attempt on each, in order; the second component lists their answers. */
  function DiscardEach(sys: Sys, ids: seq<Id>, disks: Id -> Disk): (Sys, seq<Answer>)
    decreases |ids|
  {
    if ids == [] then (sys, [])
    else
      var (sys1, a) := Discard(sys, ids[0], disks(ids[0]));
      var (sys2, answers) := DiscardEach(sys1, ids[1..], disks);
      (sys2, [a] + answers)
  }

  /** `discardController`; `order` is the owner ledger's own iteration order of the doomed artifacts. */
  function DiscardLineage(sys: Sys, c: Consumer, d: Controller, disks: nat -> Disk, order: seq<Id>, fs: Id -> Disk): (Sys, Answer) {
    var sys1 := Fence(sys, c, d, disks);
    var (sys2, answers) := DiscardEach(sys1, order, fs);
    (if Failed in answers then sys2.(poisoned := true) else sys2,
     if Failed in answers then Failed else if Refused in answers then Refused else Clean)
  }

  /** Retrieval is authorized from the owner ledger alone. */
  predicate Authorized(sys: Sys, id: Id, c: Consumer, controller: Option<Controller>) {
    && id in sys.owners
    && sys.owners[id].owner.consumer == c
    && (sys.owners[id].owner.DriveOwned? ==>
          && controller == Some(sys.owners[id].owner.controller)
          && (c, sys.owners[id].owner.controller) in sys.lineage
          && sys.lineage[(c, sys.owners[id].owner.controller)] == Active)
  }

  function AcquireLease(sys: Sys, id: Id, c: Consumer, controller: Option<Controller>, identityHolds: bool): (Sys, LeaseResult) {
    if !Authorized(sys, id, c, controller) then (sys, NoLease)
    else
      var (st, r) := LeaseEnter(sys.store, id, c, identityHolds);
      (sys.(store := st, asked := if r.Queued? then sys.asked[r.ticket := (id, c)] else sys.asked), r)
  }

  function ResumeWaiter(sys: Sys, ticket: Ticket, identityHolds: bool): (Sys, LeaseResult)
    requires ticket in sys.store.permit.handed && ticket in sys.asked
  {
    var (id, c) := sys.asked[ticket];
    var (st, r) := WaiterResumes(sys.store, ticket, id, c, identityHolds);
    (sys.(store := st), r)
  }

  /** `complete()`, or the lease's timeout: done, detached, discarded or poisoned, and only then yielded. */
  function CompleteLease(sys: Sys, lease: Lease, id: Id, d: Disk): Sys {
    var sys1 := sys.(store := BeginCompletion(sys.store, lease, id));
    var (sys2, ok) := DiscardOwned(sys1, id, d);
    var sys3 := if ok then sys2 else sys2.(store := MarkUnhealthy(sys2.store));
    sys3.(store := EndCompletion(sys3.store, lease))
  }

  /** Runtime close up to its await: the fence, every tracked generation, then the store. */
  function CloseRuntime(sys: Sys, disks: nat -> Disk, o: CloseFs): Sys {
    if sys.closed then sys
    else
      var sys1 := RetireBelow(sys.(closed := true, snapshot := sys.tracked), sys.tracked, |sys.ops|, disks);
      var (st, told) := CloseRequest(sys1.store, o);
      NotifySwept(sys1.(store := st), told)
  }

  /** The one close result, told in creation order to every operation the close had tracked. */
  function SettleBelow(sys: Sys, n: nat, failed: bool): Sys {
    if n == 0 then sys
    else
      var sys1 := SettleBelow(sys, n - 1, failed);
      if n - 1 in sys.snapshot && n - 1 < |sys1.ops|
      then Land(sys1, n - 1, SettleStoreClose(sys1.ops[n - 1], failed)) else sys1
  }

  function StoreCloseSettles(sys: Sys): Sys {
    if sys.settled || sys.store.result.None? then sys
    else SettleBelow(sys.(settled := true), |sys.ops|, sys.store.result == Some(FailedClose))
  }
}
