/**
 Every event of the pool, one launch at a time: what it makes of the launch it is about, and that it
 leaves every other launch alone, but for idle entries a full watch list forgets.
 */
module PoolSteps {
  import opened Common
  import opened PoolModel
  import opened PoolInvariants
  import opened PoolTheorems

  /** Nobody but `l` moved, except that eviction may have forgotten a watched entry. */
  ghost predicate Others(p: Pool, p': Pool, l: Launch) {
    forall k | k != l :: At(p', k) == At(p, k) || (At(p, k).watched && At(p', k) == At(p, k).(watched := false))
  }

  lemma ElsewhereIsOthers(p: Pool, p': Pool, l: Launch)
    requires Elsewhere(p, p', l)
    ensures Others(p, p', l)
  {
    hide At;
  }

  predicate About(e: Event) { !e.Acquires? && !e.Ticks? && !e.ShutsDown? }

  function RacingDir(s: Slot): bool { s.phase.Some? && s.phase.value.Racing? && s.phase.value.dir }

  /** The launch was rejected: with a directory it becomes a settled, counted record under its first sweep. */
  function FailedSlotOf(s: Slot, dir: bool, tag: Option<Consumer>): Slot {
    var f := s.(phase := Some(Returning(false)), fate := Some(Rejected), made := Making(s, dir));
    if dir then f.(orphan := true, rec := Some(NewRec(true, tag, true).(sweeping := true))) else f
  }

  function TimedOutSlotOf(s: Slot, tag: Option<Consumer>): Slot {
    var f := s.(phase := Some(Returning(false)));
    var rec := NewRec(RacingDir(s), tag, false);
    if rec.dir then f.(orphan := true, rec := Some(rec.(sweeping := true))) else f.(orphan := false, watched := false, rec := Some(rec))
  }

  function LaunchedSlotOf(s: Slot, shut: bool): Slot {
    var f := s.(fate := Some(Resolved));
    if shut then f.(phase := Some(Reaping), orphan := true, tearing := true, rec := Some(NewRec(RacingDir(s), None, false).(session := true)))
    else f.(phase := Some(Returning(true)), session := true, owned := RacingDir(s) || s.owned)
  }

  function SweptSlotOf(s: Slot): Slot
    requires s.rec.Some?
  {
    var r := s.rec.value;
    if r.sweeping || r.session || !Member(s) then s
    else if !r.dir then s.(orphan := false, watched := false)
    else s.(rec := Some(r.(sweeping := true)))
  }

  function FinalSlotOf(s: Slot): Slot
    requires s.rec.Some?
  {
    if s.rec.value.dir
    then s.(orphan := false, watched := false, rec := Some(s.rec.value.(dir := false)), made := Some(Removed(s.made)))
    else s.(orphan := false, watched := false)
  }

  /** A verdict, slot by slot. */
  function JudgedSlotOf(s: Slot, o: Outcome): Slot
    requires s.rec.Some?
  {
    var r := Judged(s.rec.value, o);
    var s1 := s.(rec := Some(r));
    if r.settleAfterSweep then Settled(s.(rec := Some(r.(settleAfterSweep := false))))
    else if r.session then s1
    else match o
      case Confirmed => if r.settled then FinalSlotOf(s1) else if s.orphan then s1.(orphan := false, watched := true) else s1
      case Unsupported => s1.(orphan := false, watched := false, made := Some(Dropped(s.made)))
      case Unconfirmed(_) => s1.(orphan := true, watched := false)
  }

  function ErroredSlotOf(s: Slot): Slot
    requires s.rec.Some?
  {
    var r := s.rec.value.(sweeping := false);
    if r.settleAfterSweep then Settled(s.(rec := Some(r.(settleAfterSweep := false))))
    else if s.watched then s.(rec := Some(r), watched := false, orphan := true)
    else s.(rec := Some(r))
  }

  function ReapedSlotOf(s: Slot): Slot { if s.phase == Some(Reaping) then s.(phase := Some(Returning(false))) else s }

  function ReconfirmedSlotOf(s: Slot): Slot {
    var s1 := Undirected(s.(session := false, unconfirmed := false, dead := true));
    if s1.orphan && s1.rec.Some? && s1.rec.value.session then Settled(s1) else s1
  }

  /** The slot of the launch an event is about, afterwards. */
  function NextSlot(s: Slot, e: Event, tag: Option<Consumer>, shut: bool): Slot
    requires About(e)
    requires e.LateResolves? || e.LateRejects? || e.Sweeps? || e.SweepSettles? || e.SweepFails? || e.OrphanDies? ==> s.rec.Some?
  {
    match e
    case Starts(_, dir) => s.(phase := Some(Racing(dir)), fate := Some(Pending), made := Making(s, dir))
    case Throws(_, dir) => FailedSlotOf(s, dir, tag)
    case Rejects(_) => FailedSlotOf(s, RacingDir(s), tag)
    case TimesOut(_) => TimedOutSlotOf(s, tag)
    case Launches(_) => LaunchedSlotOf(s, shut)
    case Returns(_) => s.(phase := None)
    case LateResolves(_) =>
      s.(fate := Some(Resolved), rec := Some(s.rec.value.(settled := true, session := true)), watched := false, orphan := true, tearing := true)
    case LateRejects(_) =>
      SweptSlotOf(s.(fate := Some(Rejected), rec := Some(s.rec.value.(settled := true)), orphan := s.orphan || !s.watched))
    case Sweeps(_) => SweptSlotOf(s)
    case SweepSettles(_, o) => JudgedSlotOf(s, o)
    case SweepFails(_) => ErroredSlotOf(s)
    case OrphanDies(_) => ReapedSlotOf(Settled(s.(dead := true, tearing := false)))
    case OrphanWedges(_) => ReapedSlotOf(s.(unconfirmed := true, tearing := false))
    case Releases(_) => if !s.session || s.closing || s.unconfirmed then s else s.(closing := true)
    case Dies(_) => Undirected(s.(session := false, closing := false, dead := true))
    case Wedges(_) => s.(unconfirmed := true, closing := false)
    case Reconfirms(_) => ReconfirmedSlotOf(s)
  }

  function TagOf(p: Pool, l: Launch): Option<Consumer> { if l in p.meta then p.meta[l] else None }

  /** One event, one launch: `p'` differs from `p` as `s'` says. */
  ghost predicate Becomes(p: Pool, p': Pool, l: Launch, s': Slot) { At(p', l) == s' && Others(p, p', l) }

  // -- launches -------------------------------------------------------------------------------------

  lemma StartBecomes(p: Pool, e: Event)
    requires PoolInv(p) && Enabled(p, e) && (e.Starts? || e.Returns?)
    ensures Becomes(p, Step(p, e), e.l, NextSlot(At(p, e.l), e, TagOf(p, e.l), p.shuttingDown))
  {
    hide PoolInv, At, Elsewhere, Others, LaunchStarts, Return, Making;
    match e {
      case Starts(l, dir) => LaunchStartsSlot(p, l, dir);
      case Returns(l) => ReturnSlot(p, l);
    }
    ElsewhereIsOthers(p, Step(p, e), e.l);
  }

  lemma RacesWith(p: Pool, l: Launch)
    requires l in p.acquires && p.acquires[l].Racing?
    ensures RacingDir(At(p, l)) == p.acquires[l].dir
  {
  }

  lemma TidyIsDistinct(p: Pool)
    requires PoolInv(p)
    ensures Distinct(p.watch) && Tidy(p)
  {
  }

  lemma FailBecomes(p: Pool, e: Event)
    requires PoolInv(p) && Enabled(p, e) && (e.Throws? || e.Rejects?)
    ensures Becomes(p, Step(p, e), e.l, NextSlot(At(p, e.l), e, TagOf(p, e.l), p.shuttingDown))
  {
    hide PoolInv, At, Elsewhere, Others, LaunchFailed, NewRec, Making, RacingDir;
    TidyIsDistinct(p);
    match e {
      case Throws(l, dir) => FailedSlot(p, l, dir);
      case Rejects(l) => FailedSlot(p, l, p.acquires[l].dir); RacesWith(p, l);
    }
    ElsewhereIsOthers(p, Step(p, e), e.l);
  }

  lemma TimeoutBecomes(p: Pool, e: Event)
    requires PoolInv(p) && Enabled(p, e) && e.TimesOut?
    ensures Becomes(p, Step(p, e), e.l, NextSlot(At(p, e.l), e, TagOf(p, e.l), p.shuttingDown))
  {
    hide PoolInv, At, Elsewhere, Others, LaunchTimedOut, RacingDir;
    TidyIsDistinct(p);
    TimedOutSlot(p, e.l, p.acquires[e.l].dir);
    RacesWith(p, e.l);
    ElsewhereIsOthers(p, Step(p, e), e.l);
  }

  lemma ResolveBecomes(p: Pool, e: Event)
    requires PoolInv(p) && Enabled(p, e) && e.Launches?
    ensures Becomes(p, Step(p, e), e.l, NextSlot(At(p, e.l), e, TagOf(p, e.l), p.shuttingDown))
  {
    hide PoolInv, At, Elsewhere, Others, Launched, RacingDir, NewRec;
    RacesWith(p, e.l);
    if p.shuttingDown { ShutOutSlot(p, e.l, p.acquires[e.l].dir); } else { RegisteredSlot(p, e.l, p.acquires[e.l].dir); }
    ElsewhereIsOthers(p, Step(p, e), e.l);
  }

  lemma LateBecomes(p: Pool, e: Event)
    requires PoolInv(p) && Enabled(p, e) && (e.LateResolves? || e.LateRejects? || e.Sweeps?)
    ensures At(p, e.l).rec.Some?
    ensures Becomes(p, Step(p, e), e.l, NextSlot(At(p, e.l), e, TagOf(p, e.l), p.shuttingDown))
  {
    hide PoolInv, At, Elsewhere, Others, LateResolve, LateReject, SweepStart;
    TidyIsDistinct(p);
    AtRec(p, e.l);
    match e {
      case LateResolves(l) => LateResolveSlot(p, l);
      case LateRejects(l) => LateRejectSlot(p, l);
      case Sweeps(l) => SweepStartSlot(p, l);
    }
    ElsewhereIsOthers(p, Step(p, e), e.l);
  }

  // -- sweeps ---------------------------------------------------------------------------------------

  /** The record as the sweep's end leaves it, before anything is decided. */
  lemma SweptRecord(p: Pool, l: Launch)
    requires PoolInv(p) && l in p.recs && p.recs[l].sweeping
    ensures var s := At(p, l); s.rec == Some(p.recs[l]) && s.orphan != s.watched && p.recs[l].dir && (p.recs[l].session ==> s.orphan)
    ensures At(p, l).orphan == (l in p.orphans) && At(p, l).watched == (l in p.watch)
  {
    hide Booked, Within, Distinct, SlotOk, At;
    TidySlot(p, l);
    AtRec(p, l);
    SweepingIsMember(At(p, l));
  }

  lemma ParkingBecomes(p: Pool, l: Launch)
    requires Tidy(p) && l !in p.watch
    ensures Becomes(p, WatchLaunch(p, l), l, At(p, l).(watched := true))
  {
    hide Evict, SlotOk, Slots;
    EvictionForgets(p, 1);
    var p1 := EnforceWatchCap(p, 1);
    assert l !in p1.watch && At(p1, l) == At(p, l);
    WatchEdit(p1, l);
    ParkedOthers(p, p1, WatchLaunch(p, l), l);
  }

  lemma EvictionForgets(p: Pool, reserve: nat)
    requires Tidy(p)
    ensures var p' := EnforceWatchCap(p, reserve);
      && Distinct(p'.watch) && (forall k | k in p'.watch :: k in p.watch)
      && (forall k :: At(p', k) == At(p, k) || (At(p, k).watched && At(p', k) == At(p, k).(watched := false)))
  {
    hide Evict, SlotOk, At;
    EvictSlots(p, reserve);
  }

  lemma ParkedOthers(p: Pool, p1: Pool, p2: Pool, l: Launch)
    requires forall k :: At(p1, k) == At(p, k) || (At(p, k).watched && At(p1, k) == At(p, k).(watched := false))
    requires Elsewhere(p1, p2, l)
    ensures Others(p, p2, l)
  {
    hide At;
  }

  lemma JudgedBecomes(p: Pool, l: Launch, o: Outcome)
    requires PoolInv(p) && l in p.recs && p.recs[l].sweeping && At(p, l).rec.Some?
    ensures Becomes(p, SweepDone(p, l, o), l, JudgedSlotOf(At(p, l), o))
  {
    hide PoolInv, At, Elsewhere, Others, Finalize, Without, WatchLaunch, SettleReaped, Settled, DirOf, Removed, Dropped;
    TidyIsDistinct(p);
    SweptRecord(p, l);
    var r := Judged(p.recs[l], o);
    VerdictSlot(p, l, r);
    var p1 := p.(recs := p.recs[l := r]);
    if r.settleAfterSweep {
      DeferredSweepSlot(p, l, r.(settleAfterSweep := false));
      ElsewhereIsOthers(p, SweepDone(p, l, o), l);
    } else if r.session || !o.Confirmed? {
      ElsewhereIsOthers(p, SweepDone(p, l, o), l);
    } else if r.settled {
      FinalVerdictSlot(p, l, r);
      ElsewhereIsOthers(p, SweepDone(p, l, o), l);
    } else {
      ConfirmedBecomes(p, l, r);
    }
  }

  lemma ConfirmedBecomes(p: Pool, l: Launch, r: Rec)
    requires PoolInv(p) && l in p.recs && p.recs[l].sweeping && !p.recs[l].settleAfterSweep && !r.session && !r.settled
    requires r == p.recs[l].(sweeping := false, stamps := [])
    ensures var p1 := p.(recs := p.recs[l := r]); var s := At(p, l);
      if l in p.orphans then Becomes(p, WatchLaunch(p1.(orphans := p1.orphans - {l}), l), l, s.(rec := Some(r), orphan := false, watched := true))
      else Becomes(p, p1, l, s.(rec := Some(r)))
  {
    hide PoolInv, At, Elsewhere, Others, Without, WatchLaunch, SlotOk, Distinct, Slots, Tidy;
    TidyIsDistinct(p);
    SweptRecord(p, l);
    TidySlot(p, l);
    UndeferredOk(At(p, l), r);
    VerdictSlot(p, l, r);
    var p1 := p.(recs := p.recs[l := r]);
    if l in p.orphans {
      var p2 := p1.(orphans := p1.orphans - {l});
      TidyBy(p, p2, l);
      ParkingBecomes(p2, l);
      OthersAfter(p, p2, WatchLaunch(p2, l), l);
    } else {
      ElsewhereIsOthers(p, p1, l);
    }
  }

  lemma OthersAfter(p: Pool, p1: Pool, p2: Pool, l: Launch)
    requires Elsewhere(p, p1, l) && Others(p1, p2, l)
    ensures Others(p, p2, l)
  {
    hide At;
  }

  lemma ErroredBecomes(p: Pool, l: Launch)
    requires PoolInv(p) && l in p.recs && p.recs[l].sweeping && At(p, l).rec.Some?
    ensures Becomes(p, SweepError(p, l), l, ErroredSlotOf(At(p, l)))
  {
    hide PoolInv, At, Elsewhere, Others, Without, SettleReaped, Settled;
    TidyIsDistinct(p);
    SweptRecord(p, l);
    var r := p.recs[l].(sweeping := false);
    VerdictSlot(p, l, r);
    if r.settleAfterSweep { DeferredSweepSlot(p, l, r.(settleAfterSweep := false)); }
    ElsewhereIsOthers(p, SweepError(p, l), l);
  }

  // -- teardowns ------------------------------------------------------------------------------------

  lemma ReapedSlot(p: Pool, l: Launch)
    ensures Elsewhere(p, Reaped(p, l), l) && At(Reaped(p, l), l) == ReapedSlotOf(At(p, l))
  {
    hide At, Elsewhere;
    AtPhase(p, l);
    PhaseEdit(p, l, Returning(false));
    NothingElsewhere(p, l);
  }

  lemma OrphanBecomes(p: Pool, e: Event)
    requires PoolInv(p) && Enabled(p, e) && (e.OrphanDies? || e.OrphanWedges?)
    ensures At(p, e.l).rec.Some?
    ensures Becomes(p, Step(p, e), e.l, NextSlot(At(p, e.l), e, TagOf(p, e.l), p.shuttingDown))
  {
    hide PoolInv, At, Elsewhere, Others, SettleReaped, Settled, Reaped, ReapedSlotOf;
    TidyIsDistinct(p);
    var l := e.l;
    AtRec(p, l);
    if e.OrphanDies? {
      DeathEdit(p, l);
      var p1 := p.(dead := p.dead + {l}, tearing := p.tearing - {l});
      SettleSlot(p1, l);
      ElsewhereTransitive(p, p1, SettleReaped(p1, l), l);
      ReapedSlot(SettleReaped(p1, l), l);
      ElsewhereTransitive(p, SettleReaped(p1, l), Step(p, e), l);
    } else {
      UnconfirmedEdit(p, l);
      var p2 := p.(unconfirmed := p.unconfirmed + {l}, tearing := p.tearing - {l});
      ReapedSlot(p2, l);
      ElsewhereTransitive(p, p2, Step(p, e), l);
    }
    ElsewhereIsOthers(p, Step(p, e), l);
  }

  lemma SessionBecomes(p: Pool, e: Event)
    requires Enabled(p, e) && (e.Releases? || e.Dies? || e.Wedges?)
    ensures Becomes(p, Step(p, e), e.l, NextSlot(At(p, e.l), e, TagOf(p, e.l), p.shuttingDown))
  {
    hide At, Elsewhere, Others, TeardownOk, Undirected;
    AtPhase(p, e.l);
    NothingElsewhere(p, e.l);
    match e {
      case Releases(l) => ClosingEdit(p, l);
      case Dies(l) => DeathSlot(p, l);
      case Wedges(l) => WedgedEdit(p, l);
    }
    ElsewhereIsOthers(p, Step(p, e), e.l);
  }

  lemma ReconfirmBecomes(p: Pool, l: Launch)
    requires PoolInv(p)
    ensures Becomes(p, ReconfirmOk(p, l), l, ReconfirmedSlotOf(At(p, l)))
  {
    hide PoolInv, At, Elsewhere, Others, RemoveOwnedDir, SettleReaped, Settled, Removed;
    TidyIsDistinct(p);
    ReconfirmEdit(p, l);
    var p1 := p.(sessions := p.sessions - {l}, unconfirmed := p.unconfirmed - {l}, dead := p.dead + {l});
    OwnedEdit(p1, l);
    var p2 := RemoveOwnedDir(p1, l);
    ElsewhereTransitive(p, p1, p2, l);
    AtRec(p2, l);
    if l in p2.orphans && l in p2.recs && p2.recs[l].session {
      SettleSlot(p2, l);
      ElsewhereTransitive(p, p2, SettleReaped(p2, l), l);
    }
    ElsewhereIsOthers(p, ReconfirmOk(p, l), l);
  }

  lemma RecIsThere(p: Pool, e: Event)
    requires Enabled(p, e) && (e.LateResolves? || e.LateRejects? || e.Sweeps? || e.SweepSettles? || e.SweepFails? || e.OrphanDies?)
    ensures At(p, e.l).rec.Some?
  {
    hide At;
    AtRec(p, e.l);
  }

  /** What one event makes of its launch, field by field, and that it leaves the others alone. */
  lemma StepBecomes(p: Pool, e: Event)
    requires PoolInv(p) && Enabled(p, e) && About(e)
    ensures e.LateResolves? || e.LateRejects? || e.Sweeps? || e.SweepSettles? || e.SweepFails? || e.OrphanDies? ==> At(p, e.l).rec.Some?
    ensures Becomes(p, Step(p, e), e.l, NextSlot(At(p, e.l), e, TagOf(p, e.l), p.shuttingDown))
  {
    hide PoolInv, At, Others, Becomes, JudgedSlotOf, ErroredSlotOf, ReconfirmedSlotOf, SweepDone, SweepError, ReconfirmOk;
    match e {
      case Starts(_, _) => StartBecomes(p, e);
      case Throws(_, _) => FailBecomes(p, e);
      case Rejects(_) => FailBecomes(p, e);
      case TimesOut(_) => TimeoutBecomes(p, e);
      case Launches(_) => ResolveBecomes(p, e);
      case Returns(_) => StartBecomes(p, e);
      case LateResolves(_) => LateBecomes(p, e);
      case LateRejects(_) => LateBecomes(p, e);
      case Sweeps(_) => LateBecomes(p, e);
      case SweepSettles(l, o) => RecIsThere(p, e); JudgedBecomes(p, l, o);
      case SweepFails(l) => RecIsThere(p, e); ErroredBecomes(p, l);
      case OrphanDies(_) => OrphanBecomes(p, e);
      case OrphanWedges(_) => OrphanBecomes(p, e);
      case Releases(_) => SessionBecomes(p, e);
      case Dies(_) => SessionBecomes(p, e);
      case Wedges(_) => SessionBecomes(p, e);
      case Reconfirms(l) => ReconfirmBecomes(p, l);
    }
  }

  /** The rest: an admitted acquire takes a fresh launch number, a tick forgets idle watched entries, a shutdown nobody. */
  lemma RestBecomes(p: Pool, e: Event)
    requires PoolInv(p) && Enabled(p, e) && !About(e)
    ensures e.Acquires? ==> Becomes(p, Step(p, e), e.l, if Admits(p, e.tag) then At(p, e.l).(phase := Some(Minting)) else At(p, e.l))
    ensures e.Ticks? || e.ShutsDown? ==> forall l :: Others(p, Step(p, e), l) && (At(Step(p, e), l) == At(p, l) || (At(p, l).watched && At(Step(p, e), l) == At(p, l).(watched := false)))
  {
    hide Booked, Within, Slots, Distinct, Evict, Admits;
    match e {
      case Acquires(l, tag) => AcquireSlot(p, l, tag); AcquireTakes(p, l, tag);
      case Ticks => EvictionForgets(p, 0);
      case ShutsDown =>
    }
  }

  lemma AcquireTakes(p: Pool, l: Launch, tag: Option<Consumer>)
    requires l !in p.meta
    ensures At(Acquire(p, l, tag), l) == if Admits(p, tag) then At(p, l).(phase := Some(Minting)) else At(p, l)
  {
    hide Admits;
  }
}
