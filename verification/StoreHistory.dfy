/** What no step of the store undoes: who holds a claim, and that a consuming record stays consuming. */
module StoreHistory {
  import opened Common
  import opened ReservationLedger
  import opened PermitModel
  import opened OperationModel
  import opened StoreModel

  /** Every live claim is an old one, or was made with a fresh token. */
  predicate Claims(s: Store, s': Store) {
    forall k | k in s'.ledger.live :: (k in s.ledger.live && s'.ledger.live[k] == s.ledger.live[k]) || s'.ledger.live[k] >= s.nextToken
  }

  /** Every running copy is an old one, under the same token, or a fresh one. */
  predicate Copies(s: Store, s': Store) {
    forall k | k in s'.inflight :: (k in s.inflight && s'.inflight[k].token == s.inflight[k].token) || s'.inflight[k].token >= s.nextToken
  }

  /** Records may have gone; none appeared, and none changed. No copy and no claim appeared either. */
  predicate Shrinks(s: Store, s': Store) {
    && (forall k | k in s'.records :: k in s.records && s'.records[k] == s.records[k])
    && s'.inflight == s.inflight && s'.nextToken == s.nextToken
    && (forall k | k in s'.ledger.live :: k in s.ledger.live && s'.ledger.live[k] == s.ledger.live[k])
  }

  predicate StillConsuming(s: Store, s': Store, k: Id)
    requires k in s.records && k in s'.records
  {
    s.records[k].status == Consuming ==> s'.records[k].status == Consuming
  }

  /** A step that leases nothing: records stay as they are, go, or are published, available, by a running copy. */
  predicate Quietly(s: Store, s': Store) {
    && s.nextToken <= s'.nextToken
    && Claims(s, s') && Copies(s, s')
    && (forall k | k in s'.records ::
          if k in s.records then s'.records[k] == s.records[k] else k in s.inflight && s'.records[k].status == Retrievable)
  }

  /** Any step: a record is published only by a running copy, and nothing consuming becomes available. */
  predicate Onward(s: Store, s': Store) {
    && s.nextToken <= s'.nextToken
    && Claims(s, s') && Copies(s, s')
    && (forall k | k in s'.records :: if k in s.records then StillConsuming(s, s', k) else k in s.inflight)
  }

  /**
   Any number of steps: a record there now, under its claim's token, was there under the same token
   and has not become available again, or was still being copied, or was not even reserved.
   */
  predicate Kept(s: Store, s': Store) {
    && s.nextToken <= s'.nextToken
    && Copies(s, s')
    && (forall k | k in s'.records && k in s'.ledger.live ::
          || (k in s.records && k in s.ledger.live && s'.ledger.live[k] == s.ledger.live[k] && StillConsuming(s, s', k))
          || (k in s.inflight && s'.ledger.live[k] == s.inflight[k].token)
          || s'.ledger.live[k] >= s.nextToken)
  }

  lemma ShrinksIsQuiet(s: Store, s': Store)
    requires Shrinks(s, s')
    ensures Quietly(s, s')
  {
  }

  lemma ShrinksReflexive(s: Store)
    ensures Shrinks(s, s)
  {
  }

  lemma QuietIsOnward(s: Store, s': Store)
    requires Quietly(s, s')
    ensures Onward(s, s')
  {
  }

  lemma ShrinksTransitive(a: Store, b: Store, c: Store)
    requires Shrinks(a, b) && Shrinks(b, c)
    ensures Shrinks(a, c)
  {
  }

  lemma QuietThenShrinks(a: Store, b: Store, c: Store)
    requires Quietly(a, b) && Shrinks(b, c)
    ensures Quietly(a, c)
  {
  }

  lemma OnwardIsKept(s: Store, s': Store)
    requires StoreInv(s) && Onward(s, s')
    ensures Kept(s, s')
  {
    hide Conserved, CloseOnce, Permitted;
    forall k | k in s'.records && k in s'.ledger.live
      ensures || (k in s.records && k in s.ledger.live && s'.ledger.live[k] == s.ledger.live[k] && StillConsuming(s, s', k))
              || (k in s.inflight && s'.ledger.live[k] == s.inflight[k].token)
              || s'.ledger.live[k] >= s.nextToken
    {
      assert RecordPaid(s, k) && CapturePaid(s, k);
    }
  }

  lemma KeptReflexive(s: Store)
    ensures Kept(s, s)
  {
  }

  lemma KeptTransitive(a: Store, b: Store, c: Store)
    requires Kept(a, b) && Kept(b, c)
    ensures Kept(a, c)
  {
  }

  /** A consuming record that is still there under the same claim is still consuming. */
  lemma KeptConsuming(s: Store, s': Store, k: Id)
    requires StoreInv(s) && Kept(s, s')
    requires k in s.records && s.records[k].status == Consuming && k in s.ledger.live
    requires k in s'.records && k in s'.ledger.live && s'.ledger.live[k] == s.ledger.live[k]
    ensures s'.records[k].status == Consuming
  {
    hide Conserved, CloseOnce, Permitted;
    assert RecordPaid(s, k);
    assert s.ledger.live[k] in s.ledger.objects;
  }

  // -- the store's own functions --------------------------------------------------------------------

  /** Nothing but health and the permit. */
  predicate SameContents(s: Store, s': Store) {
    && s'.records == s.records && s'.inflight == s.inflight && s'.nextToken == s.nextToken && s'.ledger == s.ledger && s'.result == s.result
    && s'.closeRequested == s.closeRequested
  }

  lemma SameContentsShrinks(s: Store, s': Store)
    requires SameContents(s, s')
    ensures Shrinks(s, s')
  {
  }

  lemma MarkUnhealthySame(s: Store)
    ensures SameContents(s, MarkUnhealthy(s))
  {
    hide SettleAll;
  }

  lemma ProvenSame(s: Store, holds: bool)
    ensures SameContents(s, ProveIdentity(s, holds).0)
  {
    hide SettleAll;
  }

  lemma DeletePhysicalShrinks(s: Store, id: Id, fs: Fs)
    ensures SameContents(s, DeletePhysical(s, id, fs).0) && Shrinks(s, DeletePhysical(s, id, fs).0)
  {
    hide RunSettle, ProveIdentity, MarkUnhealthy, Shrinks;
    var s0 := if s.permit.heldId == Some(id) then s.(permit := RunSettle(s.permit, Closing(s))) else s;
    ProvenSame(s0, fs.identityHolds);
    MarkUnhealthySame(ProveIdentity(s0, fs.identityHolds).0);
    SameContentsShrinks(s, DeletePhysical(s, id, fs).0);
  }

  lemma ReleaseShrinks(l: Ledger, t: Token)
    requires t in l.objects
    ensures forall k | k in ReleaseReservation(l, t).live :: k in l.live && ReleaseReservation(l, t).live[k] == l.live[k]
  {
  }

  lemma FreeCommittedShrinks(s: Store, id: Id)
    ensures var s' := FreeCommitted(s, id); s'.result == s.result && s'.records == s.records && s'.closeRequested == s.closeRequested
    ensures Shrinks(s, FreeCommitted(s, id))
  {
    hide ReleaseReservation;
    if id in s.ledger.live && s.ledger.live[id] in s.ledger.objects { ReleaseShrinks(s.ledger, s.ledger.live[id]); }
  }

  lemma QuietDiscardShrinks(s: Store, id: Id, fs: Fs)
    ensures var s' := QuietDiscard(s, id, fs).0; s'.result == s.result && s'.records == s.records && s'.closeRequested == s.closeRequested
    ensures Shrinks(s, QuietDiscard(s, id, fs).0)
  {
    hide DeletePhysical, FreeCommitted, Gate;
    DeletePhysicalShrinks(s, id, fs);
    FreeCommittedShrinks(DeletePhysical(s, id, fs).0, id);
  }

  lemma {:induction false} SweepShrinks(s: Store, ids: seq<Id>, fs: Id -> Fs)
    ensures Shrinks(s, SweepRecords(s, ids, fs).0)
    decreases |ids|
  {
    hide DeletePhysical;
    if ids != [] {
      DeletePhysicalShrinks(s, ids[0], fs(ids[0]));
      SweepShrinks(DeletePhysical(s, ids[0], fs(ids[0])).0, ids[1..], fs);
    }
  }

  lemma {:induction false} ReleaseSweptShrinks(s: Store, ids: seq<Id>)
    ensures Shrinks(s, ReleaseSwept(s, ids))
    decreases |ids|
  {
    hide FreeCommitted;
    if ids != [] {
      var s1 := Forget(s, ids[0], Deleted(true, false));
      FreeCommittedShrinks(s1, ids[0]);
      ReleaseSweptShrinks(FreeCommitted(s1, ids[0]), ids[1..]);
    }
  }

  lemma FinishCloseShrinks(s: Store, o: CloseFs)
    ensures Shrinks(s, FinishClose(s, o).0)
  {
    hide SweepRecords, ReleaseSwept, MarkUnhealthy, ProveIdentity, MayFinishClose;
    var s1 := ProveIdentity(s, o.identityHolds).0;
    var s2 := SweepRecords(s1, o.order, o.sweep).0;
    ProvenSame(s, o.identityHolds);
    SweepShrinks(s1, o.order, o.sweep);
    ReleaseSweptShrinks(s2, o.order);
    MarkUnhealthySame(s2);
  }

  lemma CloseRequestShrinks(s: Store, o: CloseFs)
    ensures Shrinks(s, CloseRequest(s, o).0) && Shrinks(s, AfterCapture(s, o).0)
  {
    hide FinishClose, SettleAll;
    FinishCloseShrinks(s, o);
    FinishCloseShrinks(s.(permit := SettleAll(s.permit, Closing(s)), closeRequested := true), o);
  }

  /** How a capture ends: its copy is gone, and no claim but perhaps its own moved. */
  predicate Ends(s: Store, s': Store, id: Id) {
    && s'.records == s.records && s'.inflight == s.inflight - {id} && s'.nextToken == s.nextToken
    && (forall k | k in s'.ledger.live :: k in s.ledger.live && s'.ledger.live[k] == s.ledger.live[k])
  }

  lemma FinallyEnds(s: Store, id: Id, committed: bool, retain: bool)
    requires id in s.inflight && s.inflight[id].token in s.ledger.objects
    ensures Ends(s, Finally(s, id, committed, retain), id)
  {
    hide ReleaseReservation;
    var l := ReleaseStage(s.ledger, s.inflight[id].token);
    ReleaseShrinks(l, s.inflight[id].token);
  }

  lemma CatchEnds(s: Store, id: Id, deleted: bool)
    requires id in s.inflight && s.inflight[id].token in s.ledger.objects
    ensures Ends(s, CatchAndClean(s, id, deleted), id)
  {
    hide Finally, SettleAll;
    FinallyEnds(s, id, false, false);
    FinallyEnds(MarkUnhealthy(s), id, false, true);
  }

  lemma SizedClaims(s: Store, id: Id, size: nat)
    requires id in s.inflight && s.inflight[id].token in s.ledger.objects
    ensures var s' := Sized(s, id, size);
      && s'.ledger.live == s.ledger.live && s'.records == s.records && s'.nextToken == s.nextToken
      && s'.inflight == s.inflight[id := s'.inflight[id]] && s'.inflight[id].token == s.inflight[id].token
      && s'.inflight[id].token in s'.ledger.objects
  {
  }

  lemma OpenedQuietly(s: Store, id: Id, c: Consumer)
    requires CaptureAdmitted(s, id, c)
    ensures Quietly(s, Opened(s, id, c))
  {
  }

  /** The copy body keeps every other copy, and its own token. */
  predicate CopyEdits(s: Store, s': Store, id: Id) {
    && s'.records == s.records && s'.nextToken == s.nextToken
    && (forall k | k in s'.ledger.live :: k in s.ledger.live && s'.ledger.live[k] == s.ledger.live[k])
    && (forall k | k in s'.inflight :: k in s.inflight && s'.inflight[k].token == s.inflight[k].token)
  }

  lemma CopyBodyEdits(s: Store, id: Id, o: StageOutcome)
    requires id in s.inflight && s.inflight[id].token in s.ledger.objects
    ensures CopyEdits(s, CopyBody(s, id, o).0, id)
  {
    hide Sized, Finally, CatchAndClean, ProveIdentity;
    match o {
      case SourceRejected => FinallyEnds(s, id, false, false);
      case RejectedAfterShrink(n) =>
        SizedClaims(s, id, n);
        FinallyEnds(Sized(s, id, n), id, false, false);
      case StageIdentityLost(n) =>
        SizedClaims(s, id, n);
        ProvenSame(Sized(s, id, n), false);
        FinallyEnds(ProveIdentity(Sized(s, id, n), false).0, id, false, false);
      case StageThrew(n, deleted) =>
        if n.Some? { SizedClaims(s, id, n.value); }
        CatchEnds(if n.Some? then Sized(s, id, n.value) else s, id, deleted);
      case StagedOk(n) => SizedClaims(s, id, n);
    }
  }

  lemma CaptureBeginQuietly(s: Store, id: Id, c: Consumer, o: StageOutcome)
    requires Bounded(o)
    ensures Quietly(s, CaptureBegin(s, id, c, o).0)
  {
    hide CopyBody, Opened, Quietly;
    if CaptureAdmitted(s, id, c) {
      OpenedQuietly(s, id, c);
      OpenedHasToken(s, id, c);
      CopyBodyEdits(Opened(s, id, c), id, o);
      OpenedThenEdits(s, id, c, CopyBody(Opened(s, id, c), id, o).0);
    } else {
      ShrinksReflexive(s);
      ShrinksIsQuiet(s, s);
    }
  }

  lemma OpenedHasToken(s: Store, id: Id, c: Consumer)
    requires CaptureAdmitted(s, id, c)
    ensures id in Opened(s, id, c).inflight && Opened(s, id, c).inflight[id].token in Opened(s, id, c).ledger.objects
  {
  }

  lemma OpenedThenEdits(s: Store, id: Id, c: Consumer, s': Store)
    requires CaptureAdmitted(s, id, c) && CopyEdits(Opened(s, id, c), s', id)
    ensures Quietly(s, s')
  {
  }

  lemma CaptureLinkQuietly(s: Store, id: Id, identityHolds: bool, linked: bool, deleted: bool)
    requires id in s.inflight && s.inflight[id].token in s.ledger.objects
    ensures Quietly(s, CaptureLink(s, id, identityHolds, linked, deleted).0)
  {
    hide Finally, CatchAndClean, ProveIdentity;
    ProvenSame(s, identityHolds);
    var s1 := ProveIdentity(s, identityHolds).0;
    FinallyEnds(s, id, false, false);
    FinallyEnds(s1, id, false, true);
    CatchEnds(s1, id, deleted);
  }

  lemma CaptureCommitQuietly(s: Store, id: Id, identityHolds: bool, proved: bool, deleted: bool, expiresAt: int)
    requires id in s.inflight && s.inflight[id].token in s.ledger.objects && id !in s.records
    ensures Quietly(s, CaptureCommit(s, id, identityHolds, proved, deleted, expiresAt).0)
  {
    hide Finally, CatchAndClean, ProveIdentity;
    ProvenSame(s, identityHolds);
    var s1 := ProveIdentity(s, identityHolds).0;
    FinallyEnds(s, id, false, false);
    FinallyEnds(s1, id, false, true);
    CatchEnds(s1, id, deleted);
    var r := Record(s1.inflight[id].consumer, s1.inflight[id].size, expiresAt, Retrievable);
    FinallyEnds(s1.(records := s1.records[id := r]), id, true, false);
  }

  // -- claims that outlive their capture ------------------------------------------------------------

  /** A copy body that throws keeps its claim exactly when its staged names were not proven gone. */
  lemma CatchRetainsIff(s: Store, id: Id, deleted: bool)
    requires StoreInv(s) && id in s.inflight
    ensures s.inflight[id].token in s.ledger.objects
    ensures var s' := CatchAndClean(s, id, deleted);
      s'.ledger.live.Keys == s.ledger.live.Keys - (if deleted && !s.identityLost then {id} else {})
  {
    hide StoreInv, Finally, SettleAll;
    FinallyKeeps(s, id, false);
    MarkUnhealthyKeeps(s);
    FinallyKeeps(MarkUnhealthy(s), id, true);
  }

  /** A capture that stops before its link keeps its claim exactly when it lost the identity proof or could not unlink. */
  lemma LinkRetainsIff(s: Store, id: Id, identityHolds: bool, linked: bool, deleted: bool)
    requires AtRest(s) && id in s.inflight
    ensures s.inflight[id].token in s.ledger.objects
    ensures var (s', r) := CaptureLink(s, id, identityHolds, linked, deleted);
      var retained := id !in s.tombstones && !Closing(s) && (!identityHolds || (!linked && !deleted));
      r == NotPublished ==> s'.ledger.live.Keys == s.ledger.live.Keys - (if retained then {} else {id})
  {
    hide Paid, Permitted, Finally, CatchAndClean, SettleAll, PermitModel.Resting;
    ProveIdentityKeeps(s, identityHolds);
    var s1 := ProveIdentity(s, identityHolds).0;
    FinallyKeeps(s, id, false);
    FinallyKeeps(s1, id, true);
    CatchRetainsIff(s1, id, deleted);
  }

  /** The same for one that stops at publication. */
  lemma CommitRetainsIff(s: Store, id: Id, identityHolds: bool, proved: bool, deleted: bool, expiresAt: int)
    requires AtRest(s) && id in s.inflight
    ensures s.inflight[id].token in s.ledger.objects
    ensures var (s', r) := CaptureCommit(s, id, identityHolds, proved, deleted, expiresAt);
      var retained := id !in s.tombstones && (s.identityLost || !identityHolds || ((Closing(s) || !proved) && !deleted));
      r == NotPublished ==> s'.ledger.live.Keys == s.ledger.live.Keys - (if retained then {} else {id})
  {
    hide Paid, Permitted, Finally, CatchAndClean, SettleAll, PermitModel.Resting;
    ProveIdentityKeeps(s, identityHolds);
    var s1 := ProveIdentity(s, identityHolds).0;
    FinallyKeeps(s, id, false);
    FinallyKeeps(s1, id, true);
    CatchRetainsIff(s1, id, deleted);
  }

  lemma StagedClaim(s: Store, id: Id, c: Consumer, size: nat)
    requires AtRest(s) && CaptureAdmitted(s, id, c) && size <= MAX_ARTIFACT_BYTES
    ensures var (s', r) := CaptureBegin(s, id, c, StagedOk(size));
      && r == Pending && AtRest(s') && id in s'.inflight && s'.inflight.Keys == s.inflight.Keys + {id}
      && s'.ledger.live.Keys == s.ledger.live.Keys + {id} && s'.records == s.records && id !in s'.tombstones
      && s'.closeRequested == s.closeRequested && s'.unhealthy == s.unhealthy && s'.identityLost == s.identityLost
  {
    hide Sized, Paid, Permitted, PermitModel.Resting, Conserved;
    OpenedKeeps(s, id, c);
    SizedKeeps(Opened(s, id, c), id, size);
    SizedClaims(Opened(s, id, c), id, size);
  }

  /**
   The run where it happens: the only capture in flight cannot link and cannot unlink, with its identity
   proven throughout; then every step of the close succeeds. The close is clean, and the claim is there.
   */
  lemma RetainedClaimOutlivesCleanClose(s: Store, id: Id, c: Consumer, size: nat, o: CloseFs)
    requires AtRest(s) && s.inflight == map[] && CaptureAdmitted(s, id, c) && size <= MAX_ARTIFACT_BYTES
    requires Lists(o.order, s.records.Keys) && CloseSucceeds(s, o)
    ensures var s1 := CaptureBegin(s, id, c, StagedOk(size)).0;
      && id in s1.inflight && s1.inflight[id].token in s1.ledger.objects
      && var s2 := CaptureLink(s1, id, true, false, false).0;
         var s3 := CloseRequest(s2, o).0;
      && s3.result == Some(CleanClose) && s3.records == map[] && s3.inflight == map[]
      && id in s3.ledger.live && s3.ledger.live.Keys == s.ledger.live.Keys - s.records.Keys + {id}
  {
    hide AtRest, StoreInv, CaptureBegin, CloseRequest, Finally, SettleAll, Lists;
    StagedClaim(s, id, c, size);
    var s1 := CaptureBegin(s, id, c, StagedOk(size)).0;
    AtRestIsStoreInv(s1);
    TombstonesInFlight(s1, id);
    CaptureLinkKeeps(s1, id, true, false, false);
    LinkRetainsIff(s1, id, true, false, false);
    var s2 := CaptureLink(s1, id, true, false, false).0;
    MarkUnhealthyKeeps(s1);
    AtRestIsStoreInv(MarkUnhealthy(s1));
    FinallyKeeps(MarkUnhealthy(s1), id, true);
    assert s2 == Finally(MarkUnhealthy(s1), id, false, true);
    AtRestIsStoreInv(s2);
    assert s2.inflight.Keys == {};
    NothingInFlight(s2);
    CloseRequestKeeps(s2, o);
  }
}
