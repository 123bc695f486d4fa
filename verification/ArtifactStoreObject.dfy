/** The artifact store object: its maps, flags, book and permit, moved in place by each segment. */
module ArtifactStoreObject {
  import opened Common
  import opened ReservationLedger
  import opened PermitModel
  import opened OperationModel
  import opened M = StoreModel
  import opened LedgerBook
  import opened Permit

  lemma NotReserved(l: Ledger, t: Token, id: Id, c: Consumer)
    requires !Admits(l, id, c)
    ensures L.Reserve(l, t, id, c) == l
  {
  }

  lemma IdentityKeepsCopies(s: Store, holds: bool)
    ensures var s' := ProveIdentity(s, holds).0;
      s'.inflight == s.inflight && s'.ledger == s.ledger && s'.records == s.records
  {
  }

  class ArtifactStore {
    const book: Book
    const permit: ResponsePermit
    var records: map<Id, Record>
    var inflight: map<Id, Inflight>
    var tombstones: set<Id>
    var activeCaptures: int
    var closeRequested: bool
    var unhealthy: bool
    var identityLost: bool
    var disposed: bool
    var teardowns: nat
    var result: Option<CloseResult>

    ghost function View(): Store
      reads this, book, permit
    {
      Store(book.View(), book.next, records, inflight, tombstones, activeCaptures,
            closeRequested, unhealthy, identityLost, disposed, teardowns, result, permit.View())
    }

    constructor (limits: Limits)
      ensures View() == EmptyStore(limits) && book.Valid()
    {
      book := new Book(limits);
      permit := new ResponsePermit();
      records, inflight, tombstones, activeCaptures := map[], map[], {}, 0;
      closeRequested, unhealthy, identityLost, disposed, teardowns, result := false, false, false, false, 0, None;
    }

    /** Poison: no future work, and every responder settled. */
    method MarkUnhealthy()
      modifies this`unhealthy, permit
      ensures View() == M.MarkUnhealthy(old(View()))
    {
      hide SettleAll;
      unhealthy := true;
      permit.SettleAll(true);
    }

    method IdentityProven(holds: bool) returns (proven: bool)
      modifies this`identityLost, this`unhealthy, permit
      ensures (View(), proven) == ProveIdentity(old(View()), holds)
    {
      hide SettleAll, M.MarkUnhealthy;
      if identityLost { return false; }
      if holds { return true; }
      identityLost := true;
      MarkUnhealthy();
      proven := false;
    }

    /** The physical half of a deletion: a response still holding the record is settled first. */
    method DeletePhysical(id: Id, fs: Fs) returns (d: Option<Deleted>)
      modifies this`identityLost, this`unhealthy, permit
      ensures (View(), d) == M.DeletePhysical(old(View()), id, fs)
    {
      hide SettleAll, M.MarkUnhealthy, RunSettle, ProveIdentity;
      if permit.heldId == Some(id) { permit.RunSettle(closeRequested || unhealthy); }
      var proven := IdentityProven(fs.identityHolds);
      if !proven { return None; }
      if !fs.unlinked {
        MarkUnhealthy();
        return None;
      }
      d := Some(Deleted(id in records, id in inflight && id !in tombstones));
    }

    /** The logical half up to its notification: the record goes, a copy still running is tombstoned. */
    method ForgetRecord(id: Id, d: Deleted)
      modifies this`records, this`tombstones
      ensures View() == Forget(old(View()), id, d)
    {
      if d.existed { records := records - {id}; }
      if d.newlyDiscardedInflight { tombstones := tombstones + {id}; }
    }

    /** And after it: committed capacity comes back; a running copy's claim is its own to end. */
    method GiveBack(id: Id)
      requires book.Valid()
      modifies book
      ensures book.Valid() && View() == FreeCommitted(old(View()), id)
    {
      hide Conserved, L.ReleaseReservation;
      if id in book.live && book.live[id] in book.objects && !book.objects[book.live[id]].staging {
        book.ReleaseReservation(book.live[id]);
      }
    }

    method ReleaseDiscarded(id: Id, d: Deleted)
      requires book.Valid()
      modifies this`records, this`tombstones, book
      ensures book.Valid() && View() == FreeCommitted(Forget(old(View()), id, d), id)
    {
      hide Conserved, Forget, FreeCommitted;
      ForgetRecord(id, d);
      GiveBack(id);
    }

    /** Refusal first and without side effects; its notification is the runtime's business. */
    method DiscardArtifactDetailed(id: Id, fs: Fs) returns (a: Answer)
      requires book.Valid()
      modifies this, book, permit
      ensures book.Valid() && (View(), a) == DirectDiscard(old(View()), id, fs)
    {
      hide M.DeletePhysical, FreeCommitted, Forget, Conserved;
      if closeRequested || disposed { return Refused; }
      if unhealthy { return Failed; }
      if id in records && records[id].status == Consuming { return Refused; }
      var d := DeletePhysical(id, fs);
      if d.None? { return Failed; }
      ReleaseDiscarded(id, d.value);
      a := Clean;
    }

    // -- capture ------------------------------------------------------------------------------------

    /** Every gate, then the reservation; nothing moves when one refuses. */
    method OpenCapture(id: Id, c: Consumer) returns (admitted: bool)
      requires book.Valid()
      modifies this`inflight, this`activeCaptures, book
      ensures book.Valid() && admitted == CaptureAdmitted(old(View()), id, c)
      ensures View() == if admitted then Opened(old(View()), id, c) else old(View())
    {
      hide Conserved;
      if closeRequested || unhealthy || id in records || id in inflight { return false; }
      var token := book.Reserve(id, c);
      if token.None? {
        hide L.Reserve;
        NotReserved(old(book.View()), old(book.next), id, c);
        return false;
      }
      inflight := inflight[id := Inflight(token.value, c, MAX_ARTIFACT_BYTES, Staged)];
      activeCaptures := activeCaptures + 1;
      admitted := true;
    }

    /** The `finally` of `capture`: the staging claim ends, and unless it is kept so does the reservation. */
    method FinishCapture(id: Id, committed: bool, retain: bool)
      requires book.Valid() && id in inflight && inflight[id].token in book.objects
      modifies this`inflight, this`tombstones, this`activeCaptures, book
      ensures book.Valid() && View() == Finally(old(View()), id, committed, retain)
    {
      hide Conserved, L.ReleaseReservation;
      var t := inflight[id].token;
      book.ReleaseStage(t);
      if !committed && !retain { book.ReleaseReservation(t); }
      tombstones, inflight, activeCaptures := tombstones - {id}, inflight - {id}, activeCaptures - 1;
    }

    /** The `catch`: staged names unlinked, or the store poisoned and the capacity retained. */
    method CatchCapture(id: Id, deleted: bool)
      requires book.Valid() && id in inflight && inflight[id].token in book.objects
      modifies this, book, permit
      ensures book.Valid() && View() == CatchAndClean(old(View()), id, deleted)
    {
      hide Finally, SettleAll, Conserved;
      if deleted && !identityLost {
        FinishCapture(id, false, false);
      } else {
        MarkUnhealthy();
        FinishCapture(id, false, true);
      }
    }

    /** From the part fsync to the link. */
    method LinkCapture(id: Id, identityHolds: bool, linked: bool, deleted: bool) returns (r: CaptureResult)
      requires book.Valid() && id in inflight && inflight[id].token in book.objects
      modifies this, book, permit
      ensures book.Valid() && (View(), r) == CaptureLink(old(View()), id, identityHolds, linked, deleted)
    {
      hide Finally, CatchAndClean, ProveIdentity, Conserved;
      if id in tombstones || closeRequested || unhealthy {
        FinishCapture(id, false, false);
        return NotPublished;
      }
      IdentityKeepsCopies(View(), identityHolds);
      var proven := IdentityProven(identityHolds);
      if !proven {
        FinishCapture(id, false, true);
        return NotPublished;
      }
      if !linked {
        CatchCapture(id, deleted);
        return NotPublished;
      }
      inflight := inflight[id := inflight[id].(stage := Linked)];
      r := Pending;
    }

    /** From the link to the publication. */
    method CommitCapture(id: Id, identityHolds: bool, proved: bool, deleted: bool, expiresAt: int) returns (r: CaptureResult)
      requires book.Valid() && id in inflight && inflight[id].token in book.objects
      modifies this, book, permit
      ensures book.Valid() && (View(), r) == CaptureCommit(old(View()), id, identityHolds, proved, deleted, expiresAt)
    {
      hide Finally, CatchAndClean, ProveIdentity, Conserved;
      if id in tombstones {
        FinishCapture(id, false, false);
        return NotPublished;
      }
      IdentityKeepsCopies(View(), identityHolds);
      var proven := IdentityProven(identityHolds);
      if !proven {
        FinishCapture(id, false, true);
        return NotPublished;
      }
      if closeRequested || unhealthy || !proved {
        CatchCapture(id, deleted);
        return NotPublished;
      }
      records := records[id := Record(inflight[id].consumer, inflight[id].size, expiresAt, Retrievable)];
      FinishCapture(id, true, false);
      r := Published;
    }

    // -- leases -------------------------------------------------------------------------------------

    method TakePermit(id: Id, identityHolds: bool) returns (r: LeaseResult)
      requires id in records
      modifies this`records, this`identityLost, this`unhealthy, permit
      ensures (View(), r) == M.TakePermit(old(View()), id, identityHolds)
    {
      hide SettleAll, M.MarkUnhealthy, Release;
      var proven := IdentityProven(identityHolds);
      if !proven {
        if permit.busy { permit.Release(closeRequested || unhealthy); }
        return NoLease;
      }
      var lease := permit.Take(id);
      records := records[id := records[id].(status := Consuming)];
      r := Granted(lease);
    }

    /** `#lease` up to its wait, after the reaping pass. */
    method Lease(id: Id, c: Consumer, identityHolds: bool) returns (r: LeaseResult)
      modifies this, permit
      ensures (View(), r) == LeaseEnter(old(View()), id, c, identityHolds)
    {
      hide M.TakePermit;
      if closeRequested || unhealthy || id !in records { return NoLease; }
      if records[id].consumer != c || records[id].status != Retrievable { return NoLease; }
      if permit.busy {
        var t := permit.Enqueue();
        return Queued(t);
      }
      r := TakePermit(id, identityHolds);
    }

    /** A waiter answered "granted" runs again, and checks the store again before it takes anything. */
    method ResumeWaiter(t: Ticket, id: Id, c: Consumer, identityHolds: bool) returns (r: LeaseResult)
      requires t in permit.handed
      modifies this, permit
      ensures (View(), r) == WaiterResumes(old(View()), t, id, c, identityHolds)
    {
      hide M.TakePermit, Release;
      permit.Resume(t);
      if closeRequested || unhealthy || id !in records || records[id].consumer != c || records[id].status != Retrievable {
        permit.Release(closeRequested || unhealthy);
        return NoLease;
      }
      r := TakePermit(id, identityHolds);
    }

    /** The close's sweep of every record's bytes: one unproven deletion spoils it, and none stops it. */
    method Sweep(ids: seq<Id>, fs: Id -> Fs) returns (clean: bool)
      modifies this`identityLost, this`unhealthy, permit
      ensures (View(), clean) == SweepRecords(old(View()), ids, fs)
    {
      hide M.DeletePhysical;
      clean := true;
      var i := 0;
      while i < |ids|
        invariant 0 <= i <= |ids|
        invariant SweepRecords(old(View()), ids, fs) ==
          (SweepRecords(View(), ids[i..], fs).0, clean && SweepRecords(View(), ids[i..], fs).1)
        invariant records == old(records) && book.View() == old(book.View()) && book.next == old(book.next)
      {
        var d := DeletePhysical(ids[i], fs(ids[i]));
        assert ids[i..][1..] == ids[i + 1..];
        if d.None? { clean := false; }
        i := i + 1;
      }
    }

    /** After a clean teardown only: every swept record is released and announced. */
    method ReleaseAll(ids: seq<Id>)
      requires book.Valid()
      modifies this`records, this`tombstones, book
      ensures book.Valid() && View() == ReleaseSwept(old(View()), ids)
    {
      hide FreeCommitted, Forget, Conserved;
      var i := 0;
      while i < |ids|
        invariant 0 <= i <= |ids| && book.Valid()
        invariant ReleaseSwept(old(View()), ids) == ReleaseSwept(View(), ids[i..])
      {
        assert ids[i..][1..] == ids[i + 1..];
        ReleaseDiscarded(ids[i], Deleted(true, false));
        i := i + 1;
      }
    }

    /** The ordered close; `told` lists its close-owned notifications. */
    method FinishClose(o: CloseFs) returns (told: seq<Id>)
      requires book.Valid()
      modifies this, book, permit
      ensures book.Valid() && (View(), told) == M.FinishClose(old(View()), o)
    {
      hide SweepRecords, ReleaseSwept, M.MarkUnhealthy, ProveIdentity, Conserved;
      if !closeRequested || activeCaptures != 0 || disposed || teardowns != 0 { return []; }
      told := [];
      var outcome := FailedClose;
      var proven := IdentityProven(o.identityHolds);
      if proven {
        var swept := Sweep(o.order, o.sweep);
        if swept && o.listed && o.filesDeleted && !identityLost && o.fsynced && o.tornDown {
          ReleaseAll(o.order);
          outcome, told := CleanClose, o.order;
        } else {
          MarkUnhealthy();
        }
      }
      disposed, teardowns, result := true, teardowns + 1, Some(outcome);
    }

    /** The one close request; asking again starts nothing. */
    method Close(o: CloseFs) returns (told: seq<Id>)
      requires book.Valid()
      modifies this, book, permit
      ensures book.Valid() && (View(), told) == CloseRequest(old(View()), o)
    {
      hide SettleAll, M.FinishClose, Conserved;
      if closeRequested { return []; }
      permit.SettleAll(closeRequested || unhealthy);
      closeRequested := true;
      told := FinishClose(o);
    }
  }
}
