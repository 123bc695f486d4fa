/**
 `ArtifactStore` of `src/artifacts/store.ts`: records, captures in flight with their tombstones, the
 reservation ledger, the response permit, poison, and the ordered close.

 What the file system did is a parameter of each segment: identity proofs, unlinks, fsyncs and close
 steps may fail at any point. The interleaving points are the awaits of `capture` (after the part
 fsync, after the link) and of `#lease` (the wait for the permit).
 */
module StoreModel {
  import opened Common
  import opened ReservationLedger
  import opened PermitModel
  import opened OperationModel

  datatype Status = Retrievable | Consuming

  datatype Record = Record(consumer: Consumer, bytes: nat, expiresAt: int, status: Status)

  datatype Stage = Staged | Linked

  datatype Inflight = Inflight(token: Token, consumer: Consumer, size: nat, stage: Stage)

  datatype CloseResult = CleanClose | FailedClose

  datatype Store = Store(
    ledger: Ledger, nextToken: Token,
    records: map<Id, Record>, inflight: map<Id, Inflight>, tombstones: set<Id>, activeCaptures: int,
    closeRequested: bool, unhealthy: bool, identityLost: bool, disposed: bool, teardowns: nat,
    result: Option<CloseResult>,
    permit: Permit)

  function EmptyStore(limits: Limits): Store {
    Store(Empty(limits), 0, map[], map[], {}, 0, false, false, false, false, 0, None, FREE)
  }

  predicate Closing(s: Store) { s.closeRequested || s.unhealthy }

  /** Poison: no future work, every responder settled, nothing torn down. */
  function MarkUnhealthy(s: Store): Store {
    s.(unhealthy := true, permit := SettleAll(s.permit, true))
  }

  /** `#identityProven`, given whether both descriptors and both paths still match. */
  function ProveIdentity(s: Store, holds: bool): (Store, bool) {
    if s.identityLost then (s, false)
    else if holds then (s, true)
    else (MarkUnhealthy(s.(identityLost := true)), false)
  }

  // -- discard ------------------------------------------------------------------------------------

  /** What the file system does to one deletion. */
  datatype Fs = Fs(identityHolds: bool, unlinked: bool)

  datatype Deleted = Deleted(existed: bool, newlyDiscardedInflight: bool)

  /** The physical half: proof of identity, then durable unlink, or poison. */
  function DeletePhysical(s: Store, id: Id, fs: Fs): (Store, Option<Deleted>) {
    var s0 := if s.permit.heldId == Some(id) then s.(permit := RunSettle(s.permit, Closing(s))) else s;
    var (s1, proven) := ProveIdentity(s0, fs.identityHolds);
    if !proven then (s1, None)
    else if !fs.unlinked then (MarkUnhealthy(s1), None)
    else (s1, Some(Deleted(id in s.records, id in s.inflight && id !in s.tombstones)))
  }

  /** The logical half up to its notification. */
  function Forget(s: Store, id: Id, d: Deleted): Store {
    s.(records := if d.existed then s.records - {id} else s.records,
       tombstones := if d.newlyDiscardedInflight then s.tombstones + {id} else s.tombstones)
  }

  /** The logical half after its notification: a staging reservation belongs to the running copy. */
  function FreeCommitted(s: Store, id: Id): Store {
    if id in s.ledger.live && s.ledger.live[id] in s.ledger.objects && !s.ledger.objects[s.ledger.live[id]].staging
    then s.(ledger := ReleaseReservation(s.ledger, s.ledger.live[id]))
    else s
  }

  /** The answers `discardArtifactDetailed` gives before it touches anything. */
  function Gate(s: Store, id: Id): Option<Answer> {
    if s.closeRequested || s.disposed then Some(Refused)
    else if s.unhealthy then Some(Failed)
    else if id in s.records && s.records[id].status == Consuming then Some(Refused)
    else None
  }

  predicate Notifies(d: Deleted) { d.existed || d.newlyDiscardedInflight }

  /** The discard of an id this store has nothing to announce for: what a nested discard amounts to. */
  function QuietDiscard(s: Store, id: Id, fs: Fs): (Store, Answer) {
    if Gate(s, id).Some? then (s, Gate(s, id).value)
    else
      var (s1, d) := DeletePhysical(s, id, fs);
      if d.None? then (s1, Failed) else (FreeCommitted(s1, id), Clean)
  }

  /** A discard whose notification reaches nobody who would react to it. */
  function DirectDiscard(s: Store, id: Id, fs: Fs): (Store, Answer) {
    if Gate(s, id).Some? then (s, Gate(s, id).value)
    else
      var (s1, d) := DeletePhysical(s, id, fs);
      if d.None? then (s1, Failed) else (FreeCommitted(Forget(s1, id, d.value), id), Clean)
  }

  // -- capture ------------------------------------------------------------------------------------

  datatype StageOutcome =
    | SourceRejected
    | RejectedAfterShrink(size: nat)
    | StageIdentityLost(size: nat)
    | StageThrew(shrunk: Option<nat>, deleted: bool)
    | StagedOk(size: nat)

  /** `Pending` means suspended at the next interleaving point. */
  datatype CaptureResult = Pending | Published | NotPublished

  predicate CaptureAdmitted(s: Store, id: Id, c: Consumer) {
    !Closing(s) && id !in s.records && id !in s.inflight && Admits(s.ledger, id, c)
  }

  /** The `finally` of `capture`. */
  function Finally(s: Store, id: Id, committed: bool, retain: bool): Store
    requires id in s.inflight && s.inflight[id].token in s.ledger.objects
  {
    var t := s.inflight[id].token;
    var l := ReleaseStage(s.ledger, t);
    s.(ledger := if committed || retain then l else ReleaseReservation(l, t),
       tombstones := s.tombstones - {id},
       inflight := s.inflight - {id},
       activeCaptures := s.activeCaptures - 1)
  }

  /** The `catch`: staged names are unlinked, or the store is poisoned and the capacity retained. */
  function CatchAndClean(s: Store, id: Id, deleted: bool): Store
    requires id in s.inflight && s.inflight[id].token in s.ledger.objects
  {
    if deleted && !s.identityLost then Finally(s, id, false, false)
    else Finally(MarkUnhealthy(s), id, false, true)
  }

  function Opened(s: Store, id: Id, c: Consumer): Store
    requires CaptureAdmitted(s, id, c)
  {
    s.(ledger := Reserve(s.ledger, s.nextToken, id, c),
       nextToken := s.nextToken + 1,
       inflight := s.inflight[id := Inflight(s.nextToken, c, MAX_ARTIFACT_BYTES, Staged)],
       activeCaptures := s.activeCaptures + 1)
  }

  function Sized(s: Store, id: Id, size: nat): Store
    requires id in s.inflight && s.inflight[id].token in s.ledger.objects
  {
    s.(ledger := Shrink(s.ledger, s.inflight[id].token, size), inflight := s.inflight[id := s.inflight[id].(size := size)])
  }

  predicate Bounded(o: StageOutcome) {
    match o
    case RejectedAfterShrink(n) => n <= MAX_ARTIFACT_BYTES
    case StageIdentityLost(n) => n <= MAX_ARTIFACT_BYTES
    case StageThrew(n, _) => n.Some? ==> n.value <= MAX_ARTIFACT_BYTES
    case StagedOk(n) => n <= MAX_ARTIFACT_BYTES
    case _ => true
  }

  /** The copy body up to its first await. */
  function CopyBody(s: Store, id: Id, o: StageOutcome): (Store, CaptureResult)
    requires id in s.inflight && s.inflight[id].token in s.ledger.objects
  {
    match o
    case SourceRejected => (Finally(s, id, false, false), NotPublished)
    case RejectedAfterShrink(n) => (Finally(Sized(s, id, n), id, false, false), NotPublished)
    case StageIdentityLost(n) => (Finally(ProveIdentity(Sized(s, id, n), false).0, id, false, false), NotPublished)
    case StageThrew(n, deleted) => (CatchAndClean(if n.Some? then Sized(s, id, n.value) else s, id, deleted), NotPublished)
    case StagedOk(n) => (Sized(s, id, n), Pending)
  }

  /** Every gate, the reservation, and the copy body. */
  function CaptureBegin(s: Store, id: Id, c: Consumer, o: StageOutcome): (Store, CaptureResult)
    requires Bounded(o)
  {
    if !CaptureAdmitted(s, id, c) then (s, NotPublished) else CopyBody(Opened(s, id, c), id, o)
  }

  /** From the first await to the second: link, or stop. */
  function CaptureLink(s: Store, id: Id, identityHolds: bool, linked: bool, deleted: bool): (Store, CaptureResult)
    requires id in s.inflight && s.inflight[id].token in s.ledger.objects
  {
    if id in s.tombstones || Closing(s) then (Finally(s, id, false, false), NotPublished)
    else
      var (s1, proven) := ProveIdentity(s, identityHolds);
      if !proven then (Finally(s1, id, false, true), NotPublished)
      else if !linked then (CatchAndClean(s1, id, deleted), NotPublished)
      else (s1.(inflight := s1.inflight[id := s1.inflight[id].(stage := Linked)]), Pending)
  }

  /** From the second await to publication. */
  function CaptureCommit(s: Store, id: Id, identityHolds: bool, proved: bool, deleted: bool, expiresAt: int): (Store, CaptureResult)
    requires id in s.inflight && s.inflight[id].token in s.ledger.objects
  {
    if id in s.tombstones then (Finally(s, id, false, false), NotPublished)
    else
      var (s1, proven) := ProveIdentity(s, identityHolds);
      if !proven then (Finally(s1, id, false, true), NotPublished)
      else if Closing(s1) then (CatchAndClean(s1, id, deleted), NotPublished)
      else if !proved then (CatchAndClean(s1, id, deleted), NotPublished)
      else
        var r := Record(s1.inflight[id].consumer, s1.inflight[id].size, expiresAt, Retrievable);
        (Finally(s1.(records := s1.records[id := r]), id, true, false), Published)
  }

  // -- leases -------------------------------------------------------------------------------------

  datatype LeaseResult = NoLease | Queued(ticket: Ticket) | Granted(lease: Lease)

  /** `#leasable`, after its reaping pass. */
  predicate Leasable(s: Store, id: Id, c: Consumer) {
    && !Closing(s)
    && id in s.records && s.records[id].consumer == c && s.records[id].status == Retrievable
  }

  function TakePermit(s: Store, id: Id, identityHolds: bool): (Store, LeaseResult)
    requires id in s.records
  {
    var (s1, proven) := ProveIdentity(s, identityHolds);
    if !proven then (if s1.permit.busy then s1.(permit := Release(s1.permit, Closing(s1))) else s1, NoLease)
    else (s1.(permit := Take(s1.permit, id),
              records := s1.records[id := s1.records[id].(status := Consuming)]),
          Granted(s1.permit.nextLease))
  }

  function LeaseEnter(s: Store, id: Id, c: Consumer, identityHolds: bool): (Store, LeaseResult) {
    if !Leasable(s, id, c) then (s, NoLease)
    else if s.permit.busy then (s.(permit := Enqueue(s.permit)), Queued(s.permit.nextTicket))
    else TakePermit(s, id, identityHolds)
  }

  /** A waiter answered "granted" runs again: it re-checks the store, never the owner ledger. */
  function WaiterResumes(s: Store, t: Ticket, id: Id, c: Consumer, identityHolds: bool): (Store, LeaseResult)
    requires t in s.permit.handed
  {
    var s1 := s.(permit := Resume(s.permit, t));
    if !Leasable(s1, id, c) then (s1.(permit := Release(s1.permit, Closing(s1))), NoLease)
    else TakePermit(s1, id, identityHolds)
  }

  // -- close --------------------------------------------------------------------------------------

  /** The close's own file system: one entry per swept record, then each ordered step. */
  datatype CloseFs = CloseFs(identityHolds: bool, order: seq<Id>, sweep: Id -> Fs, listed: bool, filesDeleted: bool, fsynced: bool, tornDown: bool)

  function SweepRecords(s: Store, ids: seq<Id>, fs: Id -> Fs): (Store, bool)
    decreases |ids|
  {
    if ids == [] then (s, true)
    else
      var (s1, d) := DeletePhysical(s, ids[0], fs(ids[0]));
      var (s2, rest) := SweepRecords(s1, ids[1..], fs);
      (s2, d.Some? && rest)
  }

  function ReleaseSwept(s: Store, ids: seq<Id>): Store
    decreases |ids|
  {
    if ids == [] then s
    else ReleaseSwept(FreeCommitted(Forget(s, ids[0], Deleted(true, false)), ids[0]), ids[1..])
  }

  predicate MayFinishClose(s: Store) {
    s.closeRequested && s.activeCaptures == 0 && !s.disposed && s.teardowns == 0
  }

  function Disposed(s: Store, r: CloseResult): Store {
    s.(disposed := true, teardowns := s.teardowns + 1, result := Some(r))
  }

  /** The ordered close; the second component lists the close-owned notifications it sent. */
  function FinishClose(s: Store, o: CloseFs): (Store, seq<Id>) {
    if !MayFinishClose(s) then (s, [])
    else
      var (s1, proven) := ProveIdentity(s, o.identityHolds);
      if !proven then (Disposed(s1, FailedClose), [])
      else
        var (s2, swept) := SweepRecords(s1, o.order, o.sweep);
        if swept && o.listed && o.filesDeleted && !s2.identityLost && o.fsynced && o.tornDown
        then (Disposed(ReleaseSwept(s2, o.order), CleanClose), o.order)
        else (Disposed(MarkUnhealthy(s2), FailedClose), [])
  }

  /** The one close request. Responders are settled before the flag goes up, as the source does. */
  function CloseRequest(s: Store, o: CloseFs): (Store, seq<Id>) {
    if s.closeRequested then (s, [])
    else FinishClose(s.(permit := SettleAll(s.permit, Closing(s)), closeRequested := true), o)
  }

  /** The close a capture's `finally` may owe. */
  function AfterCapture(s: Store, o: CloseFs): (Store, seq<Id>) {
    if s.closeRequested && s.activeCaptures == 0 then FinishClose(s, o) else (s, [])
  }

  predicate Lists(order: seq<Id>, ids: set<Id>) {
    && (forall i, j | 0 <= i < j < |order| :: order[i] != order[j])
    && (forall id | id in ids :: id in order)
    && (forall id | id in order :: id in ids)
  }

  // ---------------------------------------------------------------------------------------------
  // Invariants
  // ---------------------------------------------------------------------------------------------

  /** Every record is paid for, exactly, by its own consumer's committed reservation. */
  ghost predicate RecordPaid(s: Store, id: Id) {
    id in s.records ==>
      && id !in s.inflight
      && id in s.ledger.live && s.ledger.live[id] in s.ledger.objects
      && var r := s.ledger.objects[s.ledger.live[id]];
         r.consumer == s.records[id].consumer && r.bytes == s.records[id].bytes && !r.staging
  }

  /** A capture in flight holds its own staging reservation, and only captures hold staging ones. */
  ghost predicate CapturePaid(s: Store, id: Id) {
    && (id in s.ledger.live && s.ledger.live[id] in s.ledger.objects && s.ledger.objects[s.ledger.live[id]].staging ==> id in s.inflight)
    && (id in s.inflight ==>
      && id in s.ledger.live && s.ledger.live[id] == s.inflight[id].token && s.inflight[id].token in s.ledger.objects
      && var r := s.ledger.objects[s.inflight[id].token];
         r.id == id && r.consumer == s.inflight[id].consumer && r.bytes == s.inflight[id].size && r.staging)
  }

  ghost predicate Paid(s: Store) {
    && Conserved(s.ledger)
    && (forall t | t in s.ledger.objects :: t < s.nextToken)
    && (forall id :: RecordPaid(s, id) && CapturePaid(s, id))
    && s.tombstones <= s.inflight.Keys
    && s.activeCaptures == |s.inflight|
  }

  /** The close runs at most once, only with no capture inside, and its result is decided with it. */
  ghost predicate CloseOnce(s: Store) {
    && (s.identityLost ==> s.unhealthy)
    && s.teardowns == (if s.disposed then 1 else 0)
    && (s.disposed <==> s.result.Some?)
    && (s.disposed ==> s.closeRequested && s.inflight == map[])
    && (s.result == Some(CleanClose) ==> s.records == map[])
  }

  /** In a healthy open store a record is consuming only while it holds the permit. */
  predicate SettleReady(p: Permit) {
    p.holder.Some? ==> p.settle == p.holder || p.unfinished == {}
  }

  ghost predicate Permitted(s: Store) {
    && Core(s.permit)
    && SettleReady(s.permit)
    && (Closing(s) ==> !s.permit.busy && s.permit.unfinished == {})
    && (!Closing(s) ==> NoneLost(s.permit))
    && (!Closing(s) ==> forall id | id in s.records && s.records[id].status == Consuming :: s.permit.heldId == Some(id))
  }

  ghost predicate StoreInv(s: Store) {
    Paid(s) && CloseOnce(s) && Permitted(s)
  }

  /** Between steps, additionally: whoever holds the permit holds it for a consuming record. */
  ghost predicate AtRest(s: Store) {
    && StoreInv(s)
    && PermitModel.Resting(s.permit)
    && (!Closing(s) && s.permit.heldId.Some? ==>
          s.permit.heldId.value in s.records && s.records[s.permit.heldId.value].status == Consuming)
  }

  lemma AtRestIsStoreInv(s: Store)
    requires AtRest(s)
    ensures StoreInv(s)
  {
  }

  lemma EmptyStoreAtRest(limits: Limits)
    ensures AtRest(EmptyStore(limits))
  {
    EmptyConserved(limits);
  }

  // ---------------------------------------------------------------------------------------------
  // Preservation
  // ---------------------------------------------------------------------------------------------

  /** Nothing but health and the permit moves. */
  predicate SameBooks(s: Store, s': Store) {
    && s'.ledger == s.ledger && s'.nextToken == s.nextToken
    && s'.records == s.records && s'.inflight == s.inflight && s'.tombstones == s.tombstones
    && s'.activeCaptures == s.activeCaptures
    && s'.closeRequested == s.closeRequested && s'.disposed == s.disposed
    && s'.teardowns == s.teardowns && s'.result == s.result
  }

  lemma SameBooksKeepsPaid(s: Store, s': Store)
    requires Paid(s) && SameBooks(s, s')
    ensures Paid(s')
  {
    hide Conserved;
    forall id ensures RecordPaid(s', id) && CapturePaid(s', id) {
      assert RecordPaid(s, id) && CapturePaid(s, id);
    }
  }

  lemma MarkUnhealthyKeeps(s: Store)
    requires StoreInv(s)
    ensures AtRest(MarkUnhealthy(s)) && SameBooks(s, MarkUnhealthy(s))
  {
    hide Conserved, Core, SettleAll, Paid;
    SettleAllClears(s.permit, true);
    SameBooksKeepsPaid(s, MarkUnhealthy(s));
  }

  lemma ProveIdentityKeeps(s: Store, holds: bool)
    requires StoreInv(s)
    ensures var (s', proven) := ProveIdentity(s, holds);
      && StoreInv(s') && SameBooks(s, s')
      && (proven <==> !s.identityLost && holds)
      && (proven ==> s' == s)
      && (!proven ==> s'.unhealthy && s'.identityLost && (s.identityLost || AtRest(s')))
      && (AtRest(s) ==> AtRest(s'))
  {
    hide Conserved, Core, SettleAll, Paid;
    if !s.identityLost && !holds {
      SettleAllClears(s.permit, true);
      SameBooksKeepsPaid(s, ProveIdentity(s, holds).0);
    }
  }

  /** An unproven deletion poisons the store and moves no book; a proven one moves nothing at all yet. */
  lemma DeletePhysicalKeeps(s: Store, id: Id, fs: Fs)
    requires StoreInv(s) && (s.permit.heldId != Some(id) || s.permit.settle.None?)
    ensures var (s', d) := DeletePhysical(s, id, fs);
      && StoreInv(s') && SameBooks(s, s')
      && (d.Some? <==> !s.identityLost && fs.identityHolds && fs.unlinked)
      && (d.Some? ==> s' == s && d.value == Deleted(id in s.records, id in s.inflight && id !in s.tombstones))
      && (d.None? ==> s'.unhealthy && (s.unhealthy || AtRest(s')))
  {
    hide Paid, Permitted, SettleAll, PermitModel.Resting;
    var s0 := if s.permit.heldId == Some(id) then s.(permit := RunSettle(s.permit, Closing(s))) else s;
    assert s0 == s;
    ProveIdentityKeeps(s, fs.identityHolds);
    if ProveIdentity(s, fs.identityHolds).1 && !fs.unlinked {
      MarkUnhealthyKeeps(s);
    }
  }

  /** Freeing one id's committed reservation leaves every other id as well paid for as it was. */
  lemma OthersStayPaid(s: Store, id: Id, k: Id)
    requires Conserved(s.ledger) && id in s.ledger.live && s.ledger.live[id] in s.ledger.objects && id !in s.records && id !in s.inflight
    requires RecordPaid(s, k) && CapturePaid(s, k)
    ensures var s' := s.(ledger := ReleaseReservation(s.ledger, s.ledger.live[id]));
      RecordPaid(s', k) && CapturePaid(s', k)
  {
    hide Conserved, ReleaseReservation;
    ReleaseFreesItsId(s.ledger, id);
    LiveIsLinked(s.ledger, id);
    if k in s.ledger.live { LiveIsLinked(s.ledger, k); }
  }

  lemma FreeKeepsPaid(s: Store, id: Id)
    requires Paid(s) && id !in s.records
    ensures var s' := FreeCommitted(s, id);
      && Paid(s')
      && s' == s.(ledger := s'.ledger)
      && s'.ledger.live.Keys == (if id in s.inflight then s.ledger.live.Keys else s.ledger.live.Keys - {id})
  {
    hide Conserved, ReleaseReservation;
    assert RecordPaid(s, id) && CapturePaid(s, id);
    var s' := FreeCommitted(s, id);
    if id in s.ledger.live {
      LiveIsLinked(s.ledger, id);
      var t := s.ledger.live[id];
      if !s.ledger.objects[t].staging {
        ReleaseReservationConserves(s.ledger, t);
        ReleaseFreesItsId(s.ledger, id);
        assert id !in s.inflight;
        hide RecordPaid, CapturePaid;
        forall k ensures RecordPaid(s', k) && CapturePaid(s', k) {
          assert RecordPaid(s, k) && CapturePaid(s, k);
          OthersStayPaid(s, id, k);
        }
      }
    }
  }

  /** Freeing what an absent record was charged keeps the books; a running copy's claim is not touched. */
  lemma FreeCommittedKeeps(s: Store, id: Id)
    requires StoreInv(s) && id !in s.records
    ensures var s' := FreeCommitted(s, id);
      && StoreInv(s') && (AtRest(s) ==> AtRest(s'))
      && s' == s.(ledger := s'.ledger)
      && s'.ledger.live.Keys == (if id in s.inflight then s.ledger.live.Keys else s.ledger.live.Keys - {id})
  {
    hide Paid, FreeCommitted, Core, PermitModel.Resting;
    FreeKeepsPaid(s, id);
  }

  lemma ForgetKeepsPaid(s: Store, id: Id)
    requires Paid(s)
    ensures Paid(Forget(s, id, Deleted(id in s.records, id in s.inflight && id !in s.tombstones)))
  {
    hide Conserved;
    var s' := Forget(s, id, Deleted(id in s.records, id in s.inflight && id !in s.tombstones));
    forall k ensures RecordPaid(s', k) && CapturePaid(s', k) {
      assert RecordPaid(s, k) && CapturePaid(s, k);
    }
  }

  /** Forgetting a proven-deleted record, before its capacity is given back. */
  lemma ForgetKeeps(s: Store, id: Id)
    requires StoreInv(s)
    ensures var d := Deleted(id in s.records, id in s.inflight && id !in s.tombstones);
      var s' := Forget(s, id, d);
      && StoreInv(s') && id !in s'.records && (id in s.inflight ==> id in s'.tombstones)
      && s' == s.(records := s.records - {id}, tombstones := s'.tombstones)
      && (AtRest(s) && s.permit.heldId != Some(id) ==> AtRest(s'))
  {
    hide Paid, Core, PermitModel.Resting;
    ForgetKeepsPaid(s, id);
    assert id !in s.records ==> s.records - {id} == s.records;
  }

  /** Either the permit was not involved, or the store was poisoned and everybody settled. */
  ghost predicate Undisturbed(s: Store, s': Store) {
    (s'.permit == s.permit && s'.unhealthy == s.unhealthy) || (s'.unhealthy && AtRest(s'))
  }

  lemma QuietDiscardKeeps(s: Store, id: Id, fs: Fs)
    requires StoreInv(s) && id !in s.records && (id in s.inflight ==> id in s.tombstones)
    requires s.permit.heldId != Some(id) || s.permit.settle.None?
    ensures var (s', a) := QuietDiscard(s, id, fs);
      && StoreInv(s') && (AtRest(s) ==> AtRest(s'))
      && s'.records == s.records && s'.inflight == s.inflight && s'.tombstones == s.tombstones
      && s'.closeRequested == s.closeRequested && s'.disposed == s.disposed && s'.result == s.result
      && (s.closeRequested ==> a == Refused && s' == s)
      && (a == Refused ==> Closing(s))
      && Undisturbed(s, s')
  {
    hide Paid, Permitted, PermitModel.Resting, SettleAll;
    if Gate(s, id).None? {
      DeletePhysicalKeeps(s, id, fs);
      if DeletePhysical(s, id, fs).1.Some? {
        FreeCommittedKeeps(s, id);
      }
    }
  }

  /** A discard of this id is refused, or cannot meet an armed settle hook. */
  predicate Safe(s: Store, id: Id) {
    s.permit.heldId != Some(id) || s.permit.settle.None? || Gate(s, id).Some?
  }

  lemma AtRestIsSafe(s: Store, id: Id)
    requires AtRest(s)
    ensures Safe(s, id)
    ensures Gate(s, id).None? ==> s.permit.heldId != Some(id)
  {
  }

  /** What a discard of one id can and cannot change, whatever it answers. */
  predicate OnlyDiscard(s: Store, s': Store, id: Id, a: Answer) {
    && s'.inflight == s.inflight
    && (a == Clean ==> s'.records == s.records - {id} && s'.tombstones == s.tombstones + (if id in s.inflight then {id} else {}))
    && (a != Clean ==> s'.records == s.records && s'.tombstones == s.tombstones)
    && (a == Refused ==> s' == s)
    && s'.closeRequested == s.closeRequested && s'.disposed == s.disposed && s'.result == s.result && s'.teardowns == s.teardowns
  }

  /** Clean means the record is gone and a copy still running is tombstoned; refused means nothing moved. */
  lemma DirectDiscardKeeps(s: Store, id: Id, fs: Fs)
    requires StoreInv(s) && Safe(s, id)
    ensures var (s', a) := DirectDiscard(s, id, fs);
      && StoreInv(s') && OnlyDiscard(s, s', id, a)
      && (AtRest(s) && (s.permit.heldId != Some(id) || Gate(s, id).Some?) ==> AtRest(s'))
      && (a == Refused <==> s.closeRequested || s.disposed || (!s.unhealthy && id in s.records && s.records[id].status == Consuming))
      && (a == Failed ==> s'.unhealthy)
  {
    hide Paid, Permitted, PermitModel.Resting, SettleAll;
    if Gate(s, id).None? {
      DeletePhysicalKeeps(s, id, fs);
      if DeletePhysical(s, id, fs).1.Some? {
        ForgetKeeps(s, id);
        TombstonesInFlight(s, id);
        FreeCommittedKeeps(Forget(s, id, Deleted(id in s.records, id in s.inflight && id !in s.tombstones)), id);
      }
    }
  }

  // -- capture ------------------------------------------------------------------------------------

  lemma OpenedKeeps(s: Store, id: Id, c: Consumer)
    requires StoreInv(s) && CaptureAdmitted(s, id, c)
    ensures var s' := Opened(s, id, c);
      && StoreInv(s') && (AtRest(s) ==> AtRest(s'))
      && id in s'.inflight && s'.inflight[id].consumer == c && s'.inflight[id].size == MAX_ARTIFACT_BYTES && id !in s'.tombstones
      && s' == s.(ledger := s'.ledger, nextToken := s'.nextToken, inflight := s.inflight[id := s'.inflight[id]], activeCaptures := s'.activeCaptures)
      && s'.inflight[id].token in s'.ledger.objects
  {
    hide Paid, Core, PermitModel.Resting;
    OpenedKeepsPaid(s, id, c);
  }

  lemma OpenedKeepsPaid(s: Store, id: Id, c: Consumer)
    requires Paid(s) && CaptureAdmitted(s, id, c)
    ensures var s' := Opened(s, id, c);
      Paid(s') && id !in s'.tombstones && s'.inflight[id].token in s'.ledger.objects
  {
    hide Conserved;
    var s' := Opened(s, id, c);
    ReserveConserves(s.ledger, s.nextToken, id, c);
    assert s'.inflight.Keys == s.inflight.Keys + {id};
    forall k ensures RecordPaid(s', k) && CapturePaid(s', k) {
      assert RecordPaid(s, k) && CapturePaid(s, k);
      if k in s.ledger.live { LiveIsLinked(s.ledger, k); }
    }
  }

  lemma SizedKeeps(s: Store, id: Id, size: nat)
    requires StoreInv(s) && id in s.inflight && size <= s.inflight[id].size
    ensures s.inflight[id].token in s.ledger.objects
    ensures var s' := Sized(s, id, size);
      && StoreInv(s') && (AtRest(s) ==> AtRest(s'))
      && s' == s.(ledger := s'.ledger, inflight := s.inflight[id := s.inflight[id].(size := size)])
      && s'.inflight[id].token in s'.ledger.objects
  {
    hide Conserved, Core, PermitModel.Resting;
    assert CapturePaid(s, id);
    LiveIsLinked(s.ledger, id);
    var s' := Sized(s, id, size);
    ShrinkConserves(s.ledger, s.inflight[id].token, size);
    assert s'.inflight.Keys == s.inflight.Keys;
    forall k ensures RecordPaid(s', k) && CapturePaid(s', k) {
      assert RecordPaid(s, k) && CapturePaid(s, k);
      if k in s.ledger.live { LiveIsLinked(s.ledger, k); }
    }
  }

  lemma FinallyKeepsPaid(s: Store, id: Id, retain: bool)
    requires Paid(s) && id in s.inflight
    ensures s.inflight[id].token in s.ledger.objects && id !in s.records
    ensures var s' := Finally(s, id, false, retain);
      Paid(s') && s'.ledger.live.Keys == (if retain then s.ledger.live.Keys else s.ledger.live.Keys - {id})
  {
    hide Conserved, ReleaseReservation;
    assert CapturePaid(s, id) && RecordPaid(s, id);
    LiveIsLinked(s.ledger, id);
    var t := s.inflight[id].token;
    ReleaseStageConserves(s.ledger, t);
    var kept := Finally(s, id, false, true);
    assert kept.inflight.Keys == s.inflight.Keys - {id};
    forall k ensures RecordPaid(kept, k) && CapturePaid(kept, k) {
      assert RecordPaid(s, k) && CapturePaid(s, k);
      if k in s.ledger.live { LiveIsLinked(s.ledger, k); }
    }
    assert kept.ledger.live[id] == t && !kept.ledger.objects[t].staging;
    if !retain {
      assert Finally(s, id, false, false) == FreeCommitted(kept, id);
      FreeKeepsPaid(kept, id);
    }
  }

  /** Whatever way a capture ends unpublished, the books still balance; a retained claim has no record. */
  lemma FinallyKeeps(s: Store, id: Id, retain: bool)
    requires StoreInv(s) && id in s.inflight
    ensures s.inflight[id].token in s.ledger.objects
    ensures var s' := Finally(s, id, false, retain);
      && StoreInv(s') && (AtRest(s) ==> AtRest(s'))
      && s' == s.(ledger := s'.ledger, inflight := s.inflight - {id}, tombstones := s.tombstones - {id}, activeCaptures := s.activeCaptures - 1)
      && s'.ledger.live.Keys == (if retain then s.ledger.live.Keys else s.ledger.live.Keys - {id})
      && id !in s'.records
  {
    hide Paid, Core, PermitModel.Resting;
    FinallyKeepsPaid(s, id, retain);
  }

  /** Publication converts the reservation from staging to committed: same consumer, exact size. */
  lemma PublishKeeps(s: Store, id: Id, r: Record)
    requires StoreInv(s) && !Closing(s) && id in s.inflight
    requires r.consumer == s.inflight[id].consumer && r.bytes == s.inflight[id].size && r.status == Retrievable
    ensures s.inflight[id].token in s.ledger.objects
    ensures var s' := Finally(s.(records := s.records[id := r]), id, true, false);
      && StoreInv(s') && (AtRest(s) ==> AtRest(s'))
      && s' == s.(ledger := s'.ledger, records := s.records[id := r], inflight := s.inflight - {id},
                  tombstones := s.tombstones - {id}, activeCaptures := s.activeCaptures - 1)
  {
    hide Conserved, Core, PermitModel.Resting;
    assert CapturePaid(s, id) && RecordPaid(s, id);
    LiveIsLinked(s.ledger, id);
    var t := s.inflight[id].token;
    var s' := Finally(s.(records := s.records[id := r]), id, true, false);
    ReleaseStageConserves(s.ledger, t);
    assert s'.inflight.Keys == s.inflight.Keys - {id};
    forall k ensures RecordPaid(s', k) && CapturePaid(s', k) {
      assert RecordPaid(s, k) && CapturePaid(s, k);
      if k in s.ledger.live { LiveIsLinked(s.ledger, k); }
    }
  }

  lemma CatchKeeps(s: Store, id: Id, deleted: bool)
    requires StoreInv(s) && id in s.inflight
    ensures s.inflight[id].token in s.ledger.objects
    ensures var s' := CatchAndClean(s, id, deleted);
      && StoreInv(s') && (AtRest(s) ==> AtRest(s'))
      && s'.records == s.records && s'.inflight == s.inflight - {id} && s'.tombstones == s.tombstones - {id}
      && s'.closeRequested == s.closeRequested && s'.disposed == s.disposed && s'.result == s.result && s'.teardowns == s.teardowns
  {
    hide Paid, Permitted, SettleAll, PermitModel.Resting;
    MarkUnhealthyKeeps(s);
    FinallyKeeps(s, id, false);
    FinallyKeeps(MarkUnhealthy(s), id, true);
  }

  /** What any capture segment of one id leaves alone. */
  predicate OnlyCapture(s: Store, s': Store, id: Id, r: CaptureResult) {
    && s'.records.Keys == (if r == Published then s.records.Keys + {id} else s.records.Keys)
    && (forall k | k in s.records :: k in s'.records && s'.records[k] == s.records[k])
    && s'.inflight.Keys == (if r == Pending then s.inflight.Keys + {id} else s.inflight.Keys - {id})
    && (forall k | k in s.inflight && k != id :: k in s'.inflight && s'.inflight[k] == s.inflight[k])
    && s'.tombstones == (if r == Pending then s.tombstones else s.tombstones - {id})
    && s'.closeRequested == s.closeRequested && s'.disposed == s.disposed && s'.result == s.result && s'.teardowns == s.teardowns
  }

  lemma StageThrewKeeps(s: Store, id: Id, n: Option<nat>, deleted: bool)
    requires AtRest(s) && id in s.inflight && s.inflight[id].size == MAX_ARTIFACT_BYTES && (n.Some? ==> n.value <= MAX_ARTIFACT_BYTES)
    ensures s.inflight[id].token in s.ledger.objects
    ensures var s' := CatchAndClean(if n.Some? then Sized(s, id, n.value) else s, id, deleted);
      AtRest(s') && OnlyCapture(s, s', id, NotPublished)
  {
    hide Sized, Finally, CatchAndClean, StoreInv, AtRest;
    AtRestIsStoreInv(s);
    TombstonesInFlight(s, id);
    if n.Some? { SizedKeeps(s, id, n.value); }
    CatchKeeps(if n.Some? then Sized(s, id, n.value) else s, id, deleted);
  }

  lemma CopyBodyKeeps(s: Store, id: Id, o: StageOutcome)
    requires AtRest(s) && Bounded(o) && id in s.inflight && s.inflight[id].size == MAX_ARTIFACT_BYTES
    ensures s.inflight[id].token in s.ledger.objects
    ensures var (s', r) := CopyBody(s, id, o);
      && AtRest(s') && OnlyCapture(s, s', id, r)
      && (r == Pending <==> o.StagedOk?)
      && (r == Pending ==> s'.inflight[id].consumer == s.inflight[id].consumer && s'.inflight[id].size == o.size)
      && r != Published
  {
    hide Sized, Finally, CatchAndClean, ProveIdentity, StoreInv, AtRest;
    AtRestIsStoreInv(s);
    TombstonesInFlight(s, id);
    match o {
      case SourceRejected => FinallyKeeps(s, id, false);
      case RejectedAfterShrink(n) =>
        SizedKeeps(s, id, n);
        FinallyKeeps(Sized(s, id, n), id, false);
      case StageIdentityLost(n) =>
        SizedKeeps(s, id, n);
        ProveIdentityKeeps(Sized(s, id, n), false);
        FinallyKeeps(ProveIdentity(Sized(s, id, n), false).0, id, false);
      case StageThrew(n, deleted) => StageThrewKeeps(s, id, n, deleted);
      case StagedOk(n) => SizedKeeps(s, id, n);
    }
  }

  lemma CaptureBeginKeeps(s: Store, id: Id, c: Consumer, o: StageOutcome)
    requires AtRest(s) && Bounded(o) && id !in s.inflight
    ensures var (s', r) := CaptureBegin(s, id, c, o);
      && AtRest(s') && OnlyCapture(s, s', id, r)
      && (r == Pending <==> CaptureAdmitted(s, id, c) && o.StagedOk?)
      && (r == Pending ==> s'.inflight[id].consumer == c && s'.inflight[id].size == o.size && id !in s'.tombstones && !Closing(s))
      && r != Published
  {
    hide CopyBody, Opened, StoreInv, AtRest;
    AtRestIsStoreInv(s);
    TombstonesInFlight(s, id);
    if CaptureAdmitted(s, id, c) {
      OpenedKeeps(s, id, c);
      CopyBodyKeeps(Opened(s, id, c), id, o);
    }
  }

  lemma TombstonesInFlight(s: Store, id: Id)
    requires StoreInv(s)
    ensures id in s.tombstones ==> id in s.inflight
    ensures id in s.inflight ==> s.inflight[id].token in s.ledger.objects && id !in s.records
  {
    assert CapturePaid(s, id) && RecordPaid(s, id);
  }

  lemma CaptureLinkKeeps(s: Store, id: Id, identityHolds: bool, linked: bool, deleted: bool)
    requires AtRest(s) && id in s.inflight
    ensures s.inflight[id].token in s.ledger.objects
    ensures var (s', r) := CaptureLink(s, id, identityHolds, linked, deleted);
      && AtRest(s') && OnlyCapture(s, s', id, r)
      && (r == Pending <==> id !in s.tombstones && !Closing(s) && identityHolds && linked)
      && (r == Pending ==> s'.inflight[id] == s.inflight[id].(stage := Linked))
      && r != Published
  {
    hide Paid, Permitted, SettleAll, PermitModel.Resting, Conserved;
    TombstonesInFlight(s, id);
    ProveIdentityKeeps(s, identityHolds);
    var (s1, proven) := ProveIdentity(s, identityHolds);
    FinallyKeeps(s, id, false);
    FinallyKeeps(s1, id, true);
    CatchKeeps(s1, id, deleted);
    if id !in s.tombstones && !Closing(s) && proven && linked {
      RestagedKeeps(s, id);
    }
  }

  lemma RestagedKeeps(s: Store, id: Id)
    requires AtRest(s) && id in s.inflight
    ensures AtRest(s.(inflight := s.inflight[id := s.inflight[id].(stage := Linked)]))
  {
    hide Conserved, Core, PermitModel.Resting;
    var s' := s.(inflight := s.inflight[id := s.inflight[id].(stage := Linked)]);
    assert s'.inflight.Keys == s.inflight.Keys;
    forall k ensures RecordPaid(s', k) && CapturePaid(s', k) {
      assert RecordPaid(s, k) && CapturePaid(s, k);
    }
  }

  /** A tombstoned, closing or poisoned capture never publishes. */
  lemma CaptureCommitKeeps(s: Store, id: Id, identityHolds: bool, proved: bool, deleted: bool, expiresAt: int)
    requires AtRest(s) && id in s.inflight
    ensures s.inflight[id].token in s.ledger.objects
    ensures var (s', r) := CaptureCommit(s, id, identityHolds, proved, deleted, expiresAt);
      && AtRest(s') && OnlyCapture(s, s', id, r)
      && r != Pending
      && (r == Published <==> id !in s.tombstones && !Closing(s) && identityHolds && proved)
      && (r == Published ==>
            && s'.records[id] == Record(s.inflight[id].consumer, s.inflight[id].size, expiresAt, Retrievable))
  {
    hide Paid, Permitted, SettleAll, PermitModel.Resting, Conserved;
    TombstonesInFlight(s, id);
    ProveIdentityKeeps(s, identityHolds);
    var (s1, proven) := ProveIdentity(s, identityHolds);
    FinallyKeeps(s, id, false);
    FinallyKeeps(s1, id, true);
    CatchKeeps(s1, id, deleted);
    if id !in s.tombstones && proven && !Closing(s1) && proved {
      PublishKeeps(s, id, Record(s.inflight[id].consumer, s.inflight[id].size, expiresAt, Retrievable));
    }
  }

  // -- leases -------------------------------------------------------------------------------------

  /** All a lease can change: the permit, the health, and the one record it makes consuming. */
  predicate OnlyLease(s: Store, s': Store, id: Id, r: LeaseResult) {
    && SameBooks(s, s'.(records := s.records))
    && (!r.Granted? ==> s'.records == s.records)
    && (r.Granted? ==>
          && id in s.records && s'.records == s.records[id := s.records[id].(status := Consuming)]
          && s'.permit.unfinished == {r.lease} && s'.permit.heldId == Some(id))
  }

  lemma TakePermitKeeps(s: Store, id: Id, identityHolds: bool)
    requires StoreInv(s) && !Closing(s) && id in s.records
    requires Resting(Take(s.permit, id)) && NoneLost(Take(s.permit, id))
    requires forall k | k in s.records :: s.records[k].status == Retrievable
    ensures var (s', r) := TakePermit(s, id, identityHolds);
      && AtRest(s')
      && (r.Granted? ==> !Closing(s') && s'.permit.unfinished == {r.lease} && s'.permit.heldId == Some(id)
                         && s'.records == s.records[id := s.records[id].(status := Consuming)] && SameBooks(s, s'.(records := s.records)))
      && (!r.Granted? ==> s'.unhealthy && SameBooks(s, s') && r == NoLease)
      && (r.Granted? <==> identityHolds)
  {
    hide Conserved, Core, SettleAll;
    ProveIdentityKeeps(s, identityHolds);
    var s' := TakePermit(s, id, identityHolds).0;
    if ProveIdentity(s, identityHolds).1 {
      assert s'.records.Keys == s.records.Keys;
      forall k ensures RecordPaid(s', k) && CapturePaid(s', k) {
        assert RecordPaid(s, k) && CapturePaid(s, k);
      }
    }
  }

  /** A free permit means no record is being consumed. */
  lemma NoHolderNoConsumer(s: Store)
    requires StoreInv(s) && !Closing(s) && s.permit.holder.None?
    ensures forall k | k in s.records :: s.records[k].status == Retrievable
  {
  }

  /** A lease is granted exactly for an available record while the permit is free, and queued while it is not. */
  lemma LeaseEnterKeeps(s: Store, id: Id, c: Consumer, identityHolds: bool)
    requires AtRest(s)
    ensures var (s', r) := LeaseEnter(s, id, c, identityHolds);
      && AtRest(s')
      && (r.Granted? <==> Leasable(s, id, c) && !s.permit.busy && identityHolds)
      && (r.Queued? <==> Leasable(s, id, c) && s.permit.busy)
      && (r != NoLease ==> !Closing(s))
      && OnlyLease(s, s', id, r)
  {
    hide Paid;
    if Leasable(s, id, c) {
      if s.permit.busy {
        EnqueueKeepsResting(s.permit);
        SameBooksKeepsPaid(s, LeaseEnter(s, id, c, identityHolds).0);
      } else {
        NoHolderNoConsumer(s);
        TakeKeepsResting(s.permit, id);
        TakePermitKeeps(s, id, identityHolds);
      }
    }
  }

  /** A waiter that had been handed the permit is granted exactly when its record is still there to lease. */
  lemma WaiterResumesKeeps(s: Store, t: Ticket, id: Id, c: Consumer, identityHolds: bool)
    requires AtRest(s) && t in s.permit.handed
    ensures var (s', r) := WaiterResumes(s, t, id, c, identityHolds);
      && AtRest(s')
      && (r.Granted? <==> Leasable(s, id, c) && identityHolds)
      && (r.Granted? ==> !Closing(s))
      && !r.Queued? && t !in s'.permit.handed
      && OnlyLease(s, s', id, r)
  {
    hide Paid;
    hide Core;
    var s1 := s.(permit := Resume(s.permit, t));
    ResumeThenReleaseKeepsResting(s.permit, t, Closing(s));
    SameBooksKeepsPaid(s, s1);
    if !Leasable(s1, id, c) {
      ReleasedIsAtRest(s, t);
    } else {
      ResumeThenTakeKeepsResting(s.permit, t, id);
      NoHolderNoConsumer(s);
      TakePermitKeeps(s1, id, identityHolds);
    }
  }

  lemma ReleasedIsAtRest(s: Store, t: Ticket)
    requires AtRest(s) && t in s.permit.handed
    ensures AtRest(s.(permit := Release(Resume(s.permit, t), Closing(s))))
    ensures t !in Release(Resume(s.permit, t), Closing(s)).handed
  {
    hide Fair, Paid, Release, Resume;
    HandedIsNotQueued(s.permit, t);
    ReleaseKeepsHolder(s.permit, t, Closing(s));
    ResumeThenReleaseKeepsResting(s.permit, t, Closing(s));
    SameBooksKeepsPaid(s, s.(permit := Release(Resume(s.permit, t), Closing(s))));
  }

  /** A lease completing: its `done` flag and its detached hook, before anything is deleted. */
  function BeginCompletion(s: Store, lease: Lease, id: Id): Store {
    s.(permit := Finish(s.permit, lease, id))
  }

  /** The permit goes on only after the deletion was proven, or the store poisoned over it. */
  function EndCompletion(s: Store, lease: Lease): Store {
    s.(permit := Yield(s.permit, lease, Closing(s)))
  }

  lemma BeginCompletionKeeps(s: Store, lease: Lease, id: Id)
    requires AtRest(s) && !Closing(s) && lease in s.permit.unfinished && s.permit.heldId == Some(id)
    ensures var s' := BeginCompletion(s, lease, id);
      && StoreInv(s') && SameBooks(s, s') && !Closing(s') && !s'.unhealthy
      && id in s.records && s'.permit.settle.None? && s'.permit.unfinished == {}
      && s'.permit.holder == Some(lease) && s'.permit.heldId == Some(id)
  {
    hide Conserved, Fair;
    FinishKeepsCore(s.permit, lease, id);
    SameBooksKeepsPaid(s, BeginCompletion(s, lease, id));
  }

  lemma EndCompletionKeeps(s: Store, lease: Lease, id: Id)
    requires StoreInv(s)
    requires AtRest(s) || (!Closing(s) && s.permit.holder == Some(lease) && s.permit.heldId == Some(id) && s.permit.unfinished == {} && id !in s.records)
    requires Closing(s) || s.permit.unfinished == {}
    ensures AtRest(EndCompletion(s, lease)) && SameBooks(s, EndCompletion(s, lease))
    ensures Closing(s) ==> EndCompletion(s, lease) == s
  {
    hide Conserved, Fair;
    if !Closing(s) && s.permit.holder == Some(lease) {
      YieldKeepsCore(s.permit, lease, false);
      SameBooksKeepsPaid(s, EndCompletion(s, lease));
    }
  }

  // -- close --------------------------------------------------------------------------------------

  /** A sweep deletes bytes and moves no book; it is clean exactly when every single deletion was proven. */
  lemma {:induction false} SweepKeeps(s: Store, ids: seq<Id>, fs: Id -> Fs)
    requires AtRest(s) && s.permit.heldId.None?
    ensures var (s', clean) := SweepRecords(s, ids, fs);
      && AtRest(s') && SameBooks(s, s')
      && (clean <==> ids == [] || (!s.identityLost && forall id | id in ids :: fs(id).identityHolds && fs(id).unlinked))
      && (clean ==> s' == s)
    decreases |ids|
  {
    hide StoreInv, AtRest, DeletePhysical;
    if ids != [] {
      AtRestIsStoreInv(s);
      DeletePhysicalKeeps(s, ids[0], fs(ids[0]));
      PoisonedIsAtRest(s, ids[0], fs(ids[0]));
      var s1 := DeletePhysical(s, ids[0], fs(ids[0])).0;
      SweepKeeps(s1, ids[1..], fs);
      assert forall id | id in ids :: id == ids[0] || id in ids[1..];
    }
  }

  lemma PoisonedIsAtRest(s: Store, id: Id, fs: Fs)
    requires AtRest(s) && s.permit.heldId.None?
    ensures AtRest(DeletePhysical(s, id, fs).0) && DeletePhysical(s, id, fs).0.permit.heldId.None?
    ensures s.identityLost ==> DeletePhysical(s, id, fs).0.identityLost
  {
    hide Paid, SettleAll, Fair;
    DeletePhysicalKeeps(s, id, fs);
    ProveIdentityKeeps(s, fs.identityHolds);
    MarkUnhealthyKeeps(s);
    SettleAllClears(s.permit, true);
  }

  /** A clean close takes every swept record and exactly what each was charged. */
  lemma {:induction false} ReleaseSweptKeeps(s: Store, ids: seq<Id>)
    requires AtRest(s) && s.permit.heldId.None? && s.inflight == map[]
    requires forall id | id in ids :: id in s.records
    requires forall i, j | 0 <= i < j < |ids| :: ids[i] != ids[j]
    ensures var s' := ReleaseSwept(s, ids);
      && AtRest(s')
      && s' == s.(ledger := s'.ledger, records := s'.records, tombstones := s'.tombstones)
      && s'.records.Keys == s.records.Keys - (set id | id in ids)
      && s'.ledger.live.Keys == s.ledger.live.Keys - (set id | id in ids)
    decreases |ids|
  {
    hide AtRest, FreeCommitted, StoreInv;
    if ids != [] {
      var id := ids[0];
      AtRestIsStoreInv(s);
      ForgetKeeps(s, id);
      var s1 := Forget(s, id, Deleted(true, false));
      FreeCommittedKeeps(s1, id);
      var s2 := FreeCommitted(s1, id);
      ReleaseSweptKeeps(s2, ids[1..]);
      assert (set k | k in ids) == {id} + (set k | k in ids[1..]);
      assert ReleaseSwept(s, ids) == ReleaseSwept(s2, ids[1..]);
    }
  }

  predicate CloseSucceeds(s: Store, o: CloseFs) {
    && !s.identityLost && o.identityHolds
    && (forall id | id in s.records :: o.sweep(id).identityHolds && o.sweep(id).unlinked)
    && o.listed && o.filesDeleted && o.fsynced && o.tornDown
  }

  /**
   The close is all-or-nothing in its accounting. It is clean exactly when every step was; a clean one
   removes every record, frees exactly those records' reservations and notifies once for each, so a
   reservation a failed capture retained survives it; a failed one leaves every book as it was.
   */
  lemma CloseIsAllOrNothing(s: Store, o: CloseFs)
    requires AtRest(s) && MayFinishClose(s) && Lists(o.order, s.records.Keys)
    ensures var (s', told) := FinishClose(s, o);
      && AtRest(s') && s'.disposed && s'.closeRequested && s'.teardowns == 1 && !MayFinishClose(s')
      && s'.inflight == s.inflight == map[]
      && s'.result == Some(if CloseSucceeds(s, o) then CleanClose else FailedClose)
      && (CloseSucceeds(s, o) ==>
            && s'.records == map[] && told == o.order
            && s'.ledger.live.Keys == s.ledger.live.Keys - s.records.Keys)
      && (!CloseSucceeds(s, o) ==> s'.records == s.records && s'.ledger == s.ledger && told == [])
  {
    hide AtRest, StoreInv, MarkUnhealthy, ProveIdentity, ReleaseSwept, SweepRecords;
    AtRestIsStoreInv(s);
    NothingInFlight(s);
    ClosingHoldsNothing(s);
    ProveIdentityKeeps(s, o.identityHolds);
    var (s1, proven) := ProveIdentity(s, o.identityHolds);
    if !proven {
      DisposedAtRest(s1, FailedClose);
    } else {
      SweepKeeps(s, o.order, o.sweep);
      var (s2, swept) := SweepRecords(s, o.order, o.sweep);
      assert swept <==> forall id | id in o.order :: o.sweep(id).identityHolds && o.sweep(id).unlinked;
      assert swept <==> forall id | id in s.records :: o.sweep(id).identityHolds && o.sweep(id).unlinked;
      if swept && o.listed && o.filesDeleted && !s2.identityLost && o.fsynced && o.tornDown {
        ReleaseSweptKeeps(s, o.order);
        assert (set id | id in o.order) == s.records.Keys;
        DisposedAtRest(ReleaseSwept(s, o.order), CleanClose);
      } else {
        AtRestIsStoreInv(s2);
        MarkUnhealthyKeeps(s2);
        DisposedAtRest(MarkUnhealthy(s2), FailedClose);
      }
    }
  }

  lemma NothingInFlight(s: Store)
    requires StoreInv(s)
    ensures s.activeCaptures == 0 <==> s.inflight == map[]
    ensures s.disposed <==> s.teardowns == 1
    ensures s.disposed <==> s.result.Some?
  {
  }

  lemma DisposedAtRest(s: Store, r: CloseResult)
    requires AtRest(s) && !s.disposed && s.closeRequested && s.inflight == map[]
    requires r == CleanClose ==> s.records == map[]
    ensures AtRest(Disposed(s, r))
  {
    hide Paid, Core;
    DisposedKeepsPaid(s, r);
  }

  lemma ClosingHoldsNothing(s: Store)
    requires StoreInv(s) && Closing(s)
    ensures s.permit.holder.None? && s.permit.heldId.None? && s.permit.unfinished == {}
  {
  }

  lemma DisposedKeepsPaid(s: Store, r: CloseResult)
    requires Paid(s)
    ensures Paid(Disposed(s, r))
  {
    hide Conserved;
    forall id ensures RecordPaid(Disposed(s, r), id) && CapturePaid(Disposed(s, r), id) {
      assert RecordPaid(s, id) && CapturePaid(s, id);
    }
  }

  /** Whether a claim outlives the close is decided by its record alone: a clean close frees exactly what it swept. */
  lemma ClaimSurvivesCloseIff(s: Store, o: CloseFs, id: Id)
    requires AtRest(s) && MayFinishClose(s) && Lists(o.order, s.records.Keys)
    ensures id in FinishClose(s, o).0.ledger.live <==> id in s.ledger.live && !(CloseSucceeds(s, o) && id in s.records)
  {
    hide FinishClose, AtRest, CloseSucceeds;
    CloseIsAllOrNothing(s, o);
  }

  /** Asking again changes nothing and announces nothing: every caller shares the one result. */
  lemma CloseRequestKeeps(s: Store, o: CloseFs)
    requires AtRest(s) && Lists(o.order, s.records.Keys)
    ensures var (s', told) := CloseRequest(s, o);
      && AtRest(s') && s'.closeRequested
      && (s.closeRequested ==> s' == s && told == [])
      && (!s.closeRequested ==> (s'.disposed <==> s.activeCaptures == 0))
      && s'.inflight == s.inflight
      && (s'.result == Some(CleanClose) || (s'.records == s.records && s'.tombstones == s.tombstones && told == []))
      && (s'.result == Some(CleanClose) && !s.closeRequested ==> told == o.order && s'.records == map[])
      && (!s.closeRequested && s.activeCaptures == 0 ==>
            && s'.result == Some(if CloseSucceeds(s, o) then CleanClose else FailedClose)
            && s'.ledger.live.Keys == s.ledger.live.Keys - (if CloseSucceeds(s, o) then s.records.Keys else {}))
  {
    hide Conserved, Core, SettleAll, Fair;
    if !s.closeRequested {
      SettleAllClears(s.permit, Closing(s));
      var s1 := s.(permit := SettleAll(s.permit, Closing(s)), closeRequested := true);
      assert Paid(s1) by { CloseFlagKeepsPaid(s, s1); }
      assert AtRest(s1);
      if s.activeCaptures == 0 {
        CloseIsAllOrNothing(s1, o);
      }
    }
  }

  lemma CloseFlagKeepsPaid(s: Store, s1: Store)
    requires Paid(s) && SameBooks(s, s1.(closeRequested := s.closeRequested))
    ensures Paid(s1)
  {
    hide Conserved;
    forall id ensures RecordPaid(s1, id) && CapturePaid(s1, id) {
      assert RecordPaid(s, id) && CapturePaid(s, id);
    }
  }
}
