/** What each step of the store does do: a discard deletes, a capture publishes, a lease is passed on. */
module StoreOutcomes {
  import opened Common
  import opened ReservationLedger
  import opened PermitModel
  import opened OperationModel
  import opened StoreModel

  /** The identity proof held and the unlink was durable. */
  predicate Good(fs: Fs) { fs.identityHolds && fs.unlinked }

  /** Being streamed: only its lease may resolve it. */
  predicate Leased(s: Store, id: Id) { id in s.records && s.records[id].status == Consuming }

  /** The one answer a discard may give. */
  function Verdict(s: Store, id: Id, fs: Fs): Answer {
    if s.closeRequested then Refused
    else if s.unhealthy then Failed
    else if Leased(s, id) then Refused
    else if Good(fs) then Clean
    else Failed
  }

  /** The store after a discard of `id` that answered `a`, in every book. */
  ghost predicate DiscardedOne(s: Store, s': Store, id: Id, a: Answer) {
    && s'.records == (if a == Clean then s.records - {id} else s.records)
    && s'.inflight == s.inflight
    && s'.tombstones == s.tombstones + (if a == Clean && id in s.inflight then {id} else {})
    && s'.ledger.live.Keys == (if a == Clean && id !in s.inflight then s.ledger.live.Keys - {id} else s.ledger.live.Keys)
    && s'.closeRequested == s.closeRequested
    && (s'.unhealthy <==> s.unhealthy || a == Failed)
    && (a == Clean ==> s'.permit == s.permit)
  }

  /** A discard that nothing forbids deletes: the record, the copy's future, and the capacity of a finished one. */
  lemma DiscardIsExact(s: Store, id: Id, fs: Fs)
    requires StoreInv(s) && Safe(s, id)
    ensures var (s', a) := DirectDiscard(s, id, fs);
      a == Verdict(s, id, fs) && DiscardedOne(s, s', id, a)
  {
    hide Paid, Permitted, SettleAll, PermitModel.Resting;
    if Gate(s, id).None? {
      DeletePhysicalKeeps(s, id, fs);
      if DeletePhysical(s, id, fs).1.Some? {
        ForgetKeeps(s, id);
        TombstonesInFlight(s, id);
        FreeCommittedKeeps(Forget(s, id, Deleted(id in s.records, id in s.inflight && id !in s.tombstones)), id);
      }
    }
  }

  // -- one discard after another ------------------------------------------------------------------

  /** One attempt on one id, and what the file system does to it. */
  datatype Attempt = Attempt(id: Id, fs: Fs)

  predicate Distinct(xs: seq<Attempt>) { forall i, j | 0 <= i < j < |xs| :: xs[i].id != xs[j].id }

  /** The first attempt that the file system fails, in a store that would let it try. */
  predicate Spoils(s: Store, x: Attempt) { !Leased(s, x.id) && !Good(x.fs) }

  predicate SpoiltBefore(s: Store, xs: seq<Attempt>, k: nat)
    requires k <= |xs|
  {
    exists j | 0 <= j < k :: Spoils(s, xs[j])
  }

  /** What the `k`-th of a series of attempts answers: each is made, whatever came of those before it. */
  function VerdictAt(s: Store, xs: seq<Attempt>, k: nat): Answer
    requires k < |xs|
  {
    if s.closeRequested then Refused
    else if s.unhealthy || SpoiltBefore(s, xs, k) then Failed
    else Verdict(s, xs[k].id, xs[k].fs)
  }

  predicate Cleaned(s: Store, xs: seq<Attempt>, id: Id) {
    exists k | 0 <= k < |xs| :: xs[k].id == id && VerdictAt(s, xs, k) == Clean
  }

  /** The store after a whole series of attempts. */
  ghost predicate DiscardedAll(s: Store, s': Store, xs: seq<Attempt>) {
    && (forall id :: id in s'.records <==> id in s.records && !Cleaned(s, xs, id))
    && (forall id | id in s'.records :: s'.records[id] == s.records[id])
    && s'.inflight == s.inflight
    && (forall id :: id in s'.tombstones <==> id in s.tombstones || (id in s.inflight && Cleaned(s, xs, id)))
    && (forall id :: id in s'.ledger.live <==> id in s.ledger.live && !(Cleaned(s, xs, id) && id !in s.inflight))
    && s'.closeRequested == s.closeRequested
    && (s'.unhealthy <==> s.unhealthy || (!s.closeRequested && SpoiltBefore(s, xs, |xs|)))
  }

  lemma NoAttempts(s: Store)
    ensures DiscardedAll(s, s, [])
  {
  }

  lemma VerdictsStay(s: Store, xs: seq<Attempt>, x: Attempt, k: nat)
    requires k <= |xs|
    ensures SpoiltBefore(s, xs + [x], k) == SpoiltBefore(s, xs, k)
    ensures k < |xs| ==> VerdictAt(s, xs + [x], k) == VerdictAt(s, xs, k)
  {
    assert forall j | 0 <= j < |xs| :: (xs + [x])[j] == xs[j];
  }

  lemma CleanedOneMore(s: Store, xs: seq<Attempt>, x: Attempt, id: Id)
    ensures Cleaned(s, xs + [x], id) <==> Cleaned(s, xs, id) || (id == x.id && VerdictAt(s, xs + [x], |xs|) == Clean)
  {
    hide VerdictAt;
    forall k | 0 <= k < |xs| ensures VerdictAt(s, xs + [x], k) == VerdictAt(s, xs, k) && (xs + [x])[k] == xs[k] {
      VerdictsStay(s, xs, x, k);
    }
    assert (xs + [x])[|xs|] == x;
    if Cleaned(s, xs, id) {
      var k :| 0 <= k < |xs| && xs[k].id == id && VerdictAt(s, xs, k) == Clean;
      assert (xs + [x])[k].id == id && VerdictAt(s, xs + [x], k) == Clean;
    }
  }

  /** The next attempt on an id not tried yet answers in the current store as the series says it must. */
  lemma NextVerdict(s: Store, s1: Store, xs: seq<Attempt>, x: Attempt)
    requires DiscardedAll(s, s1, xs) && (forall k | 0 <= k < |xs| :: xs[k].id != x.id)
    ensures Verdict(s1, x.id, x.fs) == VerdictAt(s, xs + [x], |xs|)
  {
    VerdictsStay(s, xs, x, |xs|);
    assert !Cleaned(s, xs, x.id);
    assert Leased(s1, x.id) == Leased(s, x.id);
    assert (xs + [x])[|xs|] == x;
  }

  lemma OneMoreAttempt(s: Store, s1: Store, s2: Store, xs: seq<Attempt>, x: Attempt)
    requires DiscardedAll(s, s1, xs) && (forall k | 0 <= k < |xs| :: xs[k].id != x.id)
    requires DiscardedOne(s1, s2, x.id, Verdict(s1, x.id, x.fs))
    ensures DiscardedAll(s, s2, xs + [x])
  {
    hide Cleaned, SpoiltBefore, VerdictAt, Verdict;
    NextVerdict(s, s1, xs, x);
    forall id ensures Cleaned(s, xs + [x], id) <==> Cleaned(s, xs, id) || (id == x.id && VerdictAt(s, xs + [x], |xs|) == Clean) {
      CleanedOneMore(s, xs, x, id);
    }
    SpoiltOneMore(s, xs, x);
    SpoilingFails(s, s1, xs, x);
  }

  lemma SpoiltOneMore(s: Store, xs: seq<Attempt>, x: Attempt)
    ensures SpoiltBefore(s, xs + [x], |xs + [x]|) <==> SpoiltBefore(s, xs, |xs|) || Spoils(s, x)
  {
    hide Spoils;
    VerdictsStay(s, xs, x, |xs|);
    assert (xs + [x])[|xs|] == x;
  }

  lemma SpoilingFails(s: Store, s1: Store, xs: seq<Attempt>, x: Attempt)
    requires DiscardedAll(s, s1, xs) && (forall k | 0 <= k < |xs| :: xs[k].id != x.id)
    ensures (s1.unhealthy || Verdict(s1, x.id, x.fs) == Failed)
      <==> s.unhealthy || (!s.closeRequested && (SpoiltBefore(s, xs, |xs|) || Spoils(s, x)))
  {
    hide SpoiltBefore;
    assert !Cleaned(s, xs, x.id);
    assert Leased(s1, x.id) == Leased(s, x.id);
  }

  // -- a lease completing ---------------------------------------------------------------------------

  /** A completion whose notification reaches nobody who would discard again. */
  function Completed(s: Store, lease: Lease, id: Id, fs: Fs): Store {
    var (st, del) := DeletePhysical(BeginCompletion(s, lease, id), id, fs);
    EndCompletion(if del.None? then MarkUnhealthy(st) else FreeCommitted(Forget(st, id, del.value), id), lease)
  }

  /** The permit after its holder is done with it in a store that goes on: the first in the queue gets it. */
  predicate PassedOn(p: Permit, q: Permit) {
    && q.holder.None? && q.unfinished == {}
    && if p.waiters == [] then !q.busy && q.handed == {} && q.waiters == [] && q.answered == p.answered
       else q.busy && q.handed == {p.waiters[0]} && q.waiters == p.waiters[1..] && q.answered == p.answered + [(p.waiters[0], true)]
  }

  /** The permit of a store that does not: everybody who waited is refused, in turn. */
  predicate AllRefused(p: Permit, q: Permit) {
    !q.busy && q.holder.None? && q.unfinished == {} && q.waiters == [] && q.answered == p.answered + Refusals(p.waiters)
  }

  lemma LeaseHolds(s: Store, lease: Lease)
    requires AtRest(s) && lease in s.permit.unfinished
    ensures Core(s.permit) && s.permit.holder == Some(lease) && s.permit.unfinished == {lease}
  {
    hide Paid, Fair;
  }

  lemma YieldPasses(p: Permit, lease: Lease, id: Id)
    requires Core(p) && p.holder == Some(lease) && p.unfinished == {lease} && p.heldId == Some(id)
    ensures PassedOn(p, Yield(Finish(p, lease, id), lease, false))
  {
    hide Fair;
  }

  lemma SettlingRefuses(p: Permit, lease: Lease, id: Id)
    requires Core(p) && p.holder == Some(lease) && p.unfinished == {lease} && p.heldId == Some(id)
    ensures var q := SettleAll(Finish(p, lease, id), true);
      AllRefused(p, q) && SettleAll(q, true) == q && Yield(q, lease, true) == q
    ensures Finish(p, lease, id).settle.None?
  {
    hide Fair;
  }

  lemma UndeletedIsPoisoned(s: Store, id: Id, fs: Fs)
    requires s.permit.settle.None? && !s.identityLost && !Good(fs)
    ensures var (s', d) := DeletePhysical(s, id, fs);
      d.None? && s' == s.(unhealthy := true, identityLost := !fs.identityHolds, permit := SettleAll(s.permit, true))
  {
    hide SettleAll;
  }

  /** A completed lease deletes its record, frees its capacity and hands the permit on; or it poisons the store. */
  lemma CompletionIsExact(s: Store, lease: Lease, id: Id, fs: Fs)
    requires AtRest(s) && !Closing(s) && lease in s.permit.unfinished && s.permit.heldId == Some(id)
    ensures var s' := Completed(s, lease, id, fs);
      && s'.closeRequested == s.closeRequested && s'.inflight == s.inflight && s'.tombstones == s.tombstones
      && if Good(fs)
         then !s'.unhealthy && s'.records == s.records - {id} && s'.ledger.live.Keys == s.ledger.live.Keys - {id} && PassedOn(s.permit, s'.permit)
         else s'.unhealthy && s'.records == s.records && s'.ledger == s.ledger && AllRefused(s.permit, s'.permit)
  {
    hide StoreInv, AtRest, SettleAll, Yield, FreeCommitted, PassedOn, AllRefused, Finish, DeletePhysical, Core;
    LeaseHolds(s, lease);
    BeginCompletionKeeps(s, lease, id);
    var s1 := BeginCompletion(s, lease, id);
    AtRestIsStoreInv(s);
    TombstonesInFlight(s, id);
    HealthyIsProvable(s);
    SettlingRefuses(s.permit, lease, id);
    if Good(fs) {
      DeletePhysicalKeeps(s1, id, fs);
      ForgetKeeps(s1, id);
      FreeCommittedKeeps(Forget(s1, id, Deleted(true, false)), id);
      YieldPasses(s.permit, lease, id);
    } else {
      UndeletedIsPoisoned(s1, id, fs);
    }
  }

  lemma HealthyIsProvable(s: Store)
    requires StoreInv(s) && !s.unhealthy
    ensures !s.identityLost
  {
  }
}
