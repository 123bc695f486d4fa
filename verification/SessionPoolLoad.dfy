/** When the counters exceed the cap: exactly how far, and by exactly which events. */
module PoolLoad {
  import opened Common
  import opened PoolModel
  import opened PoolInvariants
  import opened PoolTheorems
  import opened PoolSteps

  // -- between registration and return --------------------------------------------------------------

  /** Acquires whose session is registered already and whose `finally` has not run. */
  function MidReturn(p: Pool): set<Launch> { set l | l in p.acquires && p.acquires[l] == Returning(true) }

  lemma UnregisteredHasNoSession(p: Pool, l: Launch)
    requires Tidy(p) && Unregistered(p, l)
    ensures l !in p.sessions
  {
    hide Distinct, RecOk, DirOk;
    assert SlotOk(At(p, l));
  }

  /** The two counters together exceed the occupied slots by exactly the acquires that are mid-return. */
  lemma CountersAreExact(p: Pool)
    requires PoolInv(p)
    ensures |p.sessions| + p.reserved == |Occupants(p)| + |MidReturn(p)|
    ensures |p.sessions| + p.reserved > p.max <==> |MidReturn(p)| > p.max - |Occupants(p)|
  {
    hide Within, Tidy, AcquiresOf;
    var un := set l | l in p.acquires && Unregistered(p, l);
    forall l | l in un ensures l !in p.sessions { UnregisteredHasNoSession(p, l); }
    assert p.acquires.Keys == un + MidReturn(p);
    assert Occupants(p) == p.sessions + un;
  }

  // -- what the pool has taken on -------------------------------------------------------------------

  /** Sessions, launches not yet registered, and counted orphan records. */
  function Load(p: Pool): set<Launch> { Occupants(p) + p.orphans }

  /** A record the pool was not counting is counted again: its core turned up late, or its group did. */
  predicate ComesBack(p: Pool, e: Event)
    requires Enabled(p, e)
  {
    match e
    case LateResolves(l) => l !in p.orphans
    case LateRejects(l) => l !in p.orphans && l !in p.watch && p.recs[l].dir
    case SweepSettles(l, o) => l in p.watch && o.Unconfirmed? && !p.recs[l].settleAfterSweep
    case SweepFails(l) => l in p.watch && !p.recs[l].settleAfterSweep
    case _ => false
  }

  lemma ActiveIsLoaded(p: Pool)
    requires PoolInv(p)
    ensures ActiveCount(p) <= |Load(p)| && |Load(p)| <= ActiveCount(p) + p.reserved
  {
    hide Within, Distinct, DirOk, PhaseOk;
    forall l | l in p.sessions ensures l !in p.orphans {
      assert SlotOk(At(p, l));
    }
    assert |p.sessions + p.orphans| == ActiveCount(p);
    SubsetIsSmaller(p.sessions + p.orphans, Load(p));
    SubsetIsSmaller(Load(p), p.sessions + p.orphans + p.acquires.Keys);
    UnionIsSmaller(p.sessions + p.orphans, p.acquires.Keys);
  }

  /** Counted in some way: a session, a launch not yet registered, or a counted orphan record. */
  predicate Counted(s: Slot) { s.session || s.orphan || Taking(s) }

  predicate Taking(s: Slot) { s.phase.Some? && s.phase != Some(Returning(true)) }

  lemma LoadIsCounted(p: Pool, l: Launch)
    ensures l in Load(p) <==> Counted(At(p, l))
  {
  }

  /** A reaped core's record has nothing left to wait for: no sweep runs over it and no process group is owed. */
  predicate Settles(r: Rec) { !r.sweeping && (r.dir ==> r.stamps == []) }

  function Owed(o: Outcome): seq<Stamp> { if o.Unconfirmed? then o.owed else [] }

  /**
   The events that give a slot back: an acquire that came to nothing returns; a session, or the core of a
   late launch that owes nothing, is confirmed dead; a sweep ends that a dead core's settlement waited for,
   with nothing owed; or a sweep finds nobody, or cannot look.
   */
  predicate Frees(s: Slot, e: Event) {
    match e
    case Returns(_) => s.phase == Some(Returning(false)) && !s.orphan
    case Dies(_) => true
    case Reconfirms(_) => s.session || (s.orphan && s.rec.Some? && s.rec.value.session && Settles(s.rec.value) && !Taking(s))
    case OrphanDies(_) => s.rec.Some? && Settles(s.rec.value) && !Taking(s)
    case SweepSettles(_, o) =>
      s.orphan && !Taking(s) && s.rec.Some? &&
      if s.rec.value.settleAfterSweep then Owed(o) == [] else !s.rec.value.session && !o.Unconfirmed?
    case SweepFails(_) => !Taking(s) && s.rec.Some? && s.rec.value.settleAfterSweep && s.rec.value.stamps == []
    case _ => false
  }

  /** The events that remove a profile directory. */
  predicate Removes(s: Slot, e: Event) {
    match e
    case Dies(_) => s.owned
    case Reconfirms(_) => s.owned || (s.orphan && s.rec.Some? && s.rec.value.session && Settles(s.rec.value) && s.rec.value.dir)
    case OrphanDies(_) => s.rec.Some? && Settles(s.rec.value) && s.rec.value.dir
    case SweepSettles(_, o) =>
      s.rec.Some? &&
      if s.rec.value.settleAfterSweep then Owed(o) == [] else !s.rec.value.session && o.Confirmed? && s.rec.value.settled
    case SweepFails(_) => s.rec.Some? && s.rec.value.settleAfterSweep && s.rec.value.stamps == []
    case _ => false
  }

  /** `ComesBack`, in the slot's terms. */
  predicate Recounts(s: Slot, e: Event) {
    match e
    case LateResolves(_) => !s.orphan
    case LateRejects(_) => !s.orphan && !s.watched && s.rec.Some? && s.rec.value.dir
    case SweepSettles(_, o) => s.watched && o.Unconfirmed? && s.rec.Some? && !s.rec.value.settleAfterSweep
    case SweepFails(_) => s.watched && s.rec.Some? && !s.rec.value.settleAfterSweep
    case _ => false
  }

  lemma ComesBackIs(p: Pool, e: Event)
    requires Enabled(p, e) && About(e)
    ensures ComesBack(p, e) <==> Recounts(At(p, e.l), e)
  {
    hide At;
    AtRec(p, e.l);
  }

  /** An event's own conditions, in the slot's terms. */
  predicate EnabledSlot(s: Slot, e: Event) {
    match e
    case Starts(_, _) => s.phase == Some(Minting)
    case Throws(_, _) => s.phase == Some(Minting)
    case Rejects(_) => s.phase.Some? && s.phase.value.Racing?
    case TimesOut(_) => s.phase.Some? && s.phase.value.Racing?
    case Launches(_) => s.phase.Some? && s.phase.value.Racing?
    case Returns(_) => s.phase.Some? && s.phase.value.Returning?
    case LateResolves(_) => s.rec.Some? && s.fate == Some(Pending)
    case LateRejects(_) => s.rec.Some? && s.fate == Some(Pending)
    case Sweeps(_) => s.rec.Some?
    case SweepSettles(_, _) => s.rec.Some? && s.rec.value.sweeping
    case SweepFails(_) => s.rec.Some? && s.rec.value.sweeping
    case OrphanDies(_) => s.tearing && s.rec.Some?
    case OrphanWedges(_) => s.tearing && s.rec.Some?
    case Dies(_) => s.closing
    case Wedges(_) => s.closing
    case Reconfirms(_) => s.unconfirmed || s.dead
    case _ => true
  }

  lemma EnabledIs(p: Pool, e: Event)
    requires Enabled(p, e) && About(e)
    ensures EnabledSlot(At(p, e.l), e)
  {
    hide At;
    AtRec(p, e.l);
    AtPhase(p, e.l);
  }

  /** What an event owes its launch's slot: counted before and after, and the directory. */
  predicate Accounts(s: Slot, s': Slot, e: Event) {
    && (Counted(s') <==> (Counted(s) && !Frees(s, e)) || Recounts(s, e))
    && (Frees(s, e) ==> Counted(s) && !Recounts(s, e))
    && RemovalsOf(s') == RemovalsOf(s) + (if Removes(s, e) then 1 else 0)
    && (s'.made.Some? <==> s.made.Some? || ((e.Starts? || e.Throws?) && e.dir))
    && (WasDropped(s') <==> WasDropped(s) || LetsGo(s, e))
  }

  /** A host that cannot sweep lets the record go, its directory left behind. */
  predicate LetsGo(s: Slot, e: Event) {
    e.SweepSettles? && e.o.Unsupported? && s.rec.Some? && !s.rec.value.settleAfterSweep && !s.rec.value.session
  }

  lemma LaunchAccounts(s: Slot, e: Event, tag: Option<Consumer>, shut: bool)
    requires SlotOk(s) && EnabledSlot(s, e) && (e.Starts? || e.Throws? || e.Rejects? || e.TimesOut? || e.Launches? || e.Returns?)
    ensures Accounts(s, NextSlot(s, e, tag, shut), e)
  {
  }

  lemma LateAccounts(s: Slot, e: Event, tag: Option<Consumer>, shut: bool)
    requires SlotOk(s) && EnabledSlot(s, e) && (e.LateResolves? || e.LateRejects? || e.Sweeps?)
    ensures Accounts(s, NextSlot(s, e, tag, shut), e)
  {
  }

  lemma SweepAccounts(s: Slot, e: Event, tag: Option<Consumer>, shut: bool)
    requires SlotOk(s) && EnabledSlot(s, e) && (e.SweepSettles? || e.SweepFails?)
    ensures Accounts(s, NextSlot(s, e, tag, shut), e)
  {
  }

  lemma DeathAccounts(s: Slot, e: Event, tag: Option<Consumer>, shut: bool)
    requires SlotOk(s) && EnabledSlot(s, e) && (e.OrphanDies? || e.OrphanWedges? || e.Releases? || e.Dies? || e.Wedges? || e.Reconfirms?)
    ensures Accounts(s, NextSlot(s, e, tag, shut), e)
  {
  }
  lemma SlotAccounts(s: Slot, e: Event, tag: Option<Consumer>, shut: bool)
    requires SlotOk(s) && EnabledSlot(s, e) && About(e)
    requires e.LateResolves? || e.LateRejects? || e.Sweeps? || e.SweepSettles? || e.SweepFails? || e.OrphanDies? ==> s.rec.Some?
    ensures Accounts(s, NextSlot(s, e, tag, shut), e)
  {
    hide SlotOk, EnabledSlot, NextSlot, Accounts;
    if e.Starts? || e.Throws? || e.Rejects? || e.TimesOut? || e.Launches? || e.Returns? { LaunchAccounts(s, e, tag, shut); }
    else if e.LateResolves? || e.LateRejects? || e.Sweeps? { LateAccounts(s, e, tag, shut); }
    else if e.SweepSettles? || e.SweepFails? { SweepAccounts(s, e, tag, shut); }
    else { DeathAccounts(s, e, tag, shut); }
  }

  /** An event that is about one launch accounts for it and for nobody else. */
  lemma StepAccounts(p: Pool, e: Event)
    requires PoolInv(p) && Enabled(p, e) && About(e)
    ensures Accounts(At(p, e.l), At(Step(p, e), e.l), e) && Others(p, Step(p, e), e.l)
  {
    hide PoolInv, Enabled, Step, At, Accounts, Others, NextSlot, SlotOk, EnabledSlot;
    StepBecomes(p, e);
    EnabledIs(p, e);
    assert SlotOk(At(p, e.l)) by { TidyIsDistinct(p); TidySlot(p, e.l); }
    SlotAccounts(At(p, e.l), e, TagOf(p, e.l), p.shuttingDown);
  }

  /** Being forgotten by the watch list counts for nothing. */
  lemma ForgottenCountsAlike(s: Slot)
    ensures Counted(s.(watched := false)) == Counted(s) && RemovalsOf(s.(watched := false)) == RemovalsOf(s)
  {
  }

  lemma OthersCountAlike(p: Pool, p': Pool, l: Launch)
    requires Others(p, p', l)
    ensures forall k | k != l :: Counted(At(p', k)) == Counted(At(p, k)) && RemovalsOf(At(p', k)) == RemovalsOf(At(p, k))
  {
    hide At, Counted, RemovalsOf;
    forall k | k != l ensures Counted(At(p', k)) == Counted(At(p, k)) && RemovalsOf(At(p', k)) == RemovalsOf(At(p, k)) {
      ForgottenCountsAlike(At(p, k));
    }
  }

  /** What an event makes of the load. */
  function NextLoad(p: Pool, e: Event): set<Launch>
    requires Enabled(p, e)
  {
    if (e.Acquires? && Admits(p, e.tag)) || ComesBack(p, e) then Load(p) + {e.l}
    else if About(e) && Frees(At(p, e.l), e) then Load(p) - {e.l}
    else Load(p)
  }

  lemma AboutLoads(p: Pool, e: Event)
    requires PoolInv(p) && Enabled(p, e) && About(e)
    ensures Load(Step(p, e)) == NextLoad(p, e) && (Frees(At(p, e.l), e) ==> e.l in Load(p) && !ComesBack(p, e))
  {
    hide PoolInv, Enabled, Step, At, Load, Counted, Frees, Recounts, ComesBack, Others, RemovalsOf, Removes;
    StepAccounts(p, e);
    ComesBackIs(p, e);
    var p' := Step(p, e);
    OthersCountAlike(p, p', e.l);
    forall k ensures k in Load(p') <==> Counted(At(p', k)) { LoadIsCounted(p', k); }
    forall k ensures k in Load(p) <==> Counted(At(p, k)) { LoadIsCounted(p, k); }
  }

  lemma RestLoads(p: Pool, e: Event)
    requires PoolInv(p) && Enabled(p, e) && (e.Ticks? || e.ShutsDown?)
    ensures Load(Step(p, e)) == Load(p) && Step(p, e).max == p.max
  {
    hide Evict;
  }

  /**
   What one event makes of the load, exactly: an admitted launch and a record coming back add one, the
   events of `Frees` take one off, and nothing else moves it.
   */
  lemma LoadStep(p: Pool, e: Event)
    requires PoolInv(p) && Enabled(p, e)
    ensures var p' := Step(p, e);
      && p'.max == p.max
      && Load(p') == NextLoad(p, e)
      && (e.Acquires? && Admits(p, e.tag) ==> |Load(p')| <= p.max)
      && (About(e) && Frees(At(p, e.l), e) ==> e.l in Load(p))
  {
    hide PoolInv, Admits, ComesBack, Occupants, Frees, At, Load;
    if e.Acquires? {
      AcquireLoads(p, e.l, e.tag);
      StepIsAcquire(p, e);
      hide Step, Enabled;
    } else if About(e) {
      hide Step, Enabled;
      AboutLoads(p, e);
      OccupantsShrink(p, e);
    } else {
      RestLoads(p, e);
      RestNeverComesBack(p, e);
    }
  }

  lemma RestNeverComesBack(p: Pool, e: Event)
    requires Enabled(p, e) && !About(e)
    ensures !ComesBack(p, e)
  {
  }

  /** A profile directory is removed by exactly the events of `Removes`, the launch's own, once each. */
  lemma RemovalStep(p: Pool, e: Event, l: Launch)
    requires PoolInv(p) && Enabled(p, e)
    ensures Removals(Step(p, e), l) == Removals(p, l) + (if About(e) && l == e.l && Removes(At(p, l), e) then 1 else 0)
  {
    hide PoolInv, At, Counted, Frees, Recounts, Others, Removes, RemovalsOf;
    RemovalsAre(p, l);
    RemovalsAre(Step(p, e), l);
    if About(e) {
      hide Step, Enabled;
      StepAccounts(p, e);
      OthersCountAlike(p, Step(p, e), e.l);
    } else {
      RestMakesNothing(p, e);
    }
  }

  lemma DirsAre(p: Pool, l: Launch)
    ensures (l in p.dirs <==> At(p, l).made.Some?) && (l in p.dirs && p.dirs[l].dropped <==> WasDropped(At(p, l)))
  {
  }

  lemma ForgottenIsMadeAlike(p: Pool, p': Pool, l: Launch)
    requires Others(p, p', l)
    ensures forall k | k != l :: At(p', k).made == At(p, k).made
  {
    hide At;
  }

  /** A launch has a directory of its own exactly from the start it was made for, and it is let go only on a host no sweep supports. */
  lemma DirectoryStep(p: Pool, e: Event, l: Launch)
    requires PoolInv(p) && Enabled(p, e)
    ensures var p' := Step(p, e);
      && (l in p'.dirs <==> l in p.dirs || ((e.Starts? || e.Throws?) && e.l == l && e.dir))
      && (l in p'.dirs && p'.dirs[l].dropped <==> (l in p.dirs && p.dirs[l].dropped) || (About(e) && e.l == l && LetsGo(At(p, l), e)))
  {
    hide PoolInv, At, Counted, Frees, Recounts, Others, Removes, RemovalsOf, LetsGo;
    DirsAre(p, l);
    DirsAre(Step(p, e), l);
    if About(e) {
      hide Step, Enabled, WasDropped;
      StepAccounts(p, e);
      ForgottenIsMadeAlike(p, Step(p, e), e.l);
      if l != e.l { MadeAlike(At(p, l), At(Step(p, e), l)); }
    } else {
      RestMakesNothing(p, e);
    }
  }

  lemma RestMakesNothing(p: Pool, e: Event)
    requires Enabled(p, e) && !About(e)
    ensures Step(p, e).dirs == p.dirs
  {
    hide Admits, Evict;
  }

  lemma MadeAlike(s: Slot, s': Slot)
    requires s'.made == s.made
    ensures WasDropped(s') == WasDropped(s)
  {
  }

  /**
   The last word of a sweep: over a settled record with no core of its own an empty scan ends everything,
   the record's place in the count and on the watch list, and its directory, removed then and only then.
   */
  lemma ConfirmedSweepEnds(p: Pool, l: Launch)
    requires PoolInv(p) && l in p.recs && p.recs[l].sweeping && p.recs[l].settled && !p.recs[l].settleAfterSweep && !p.recs[l].session
    ensures var p' := Step(p, SweepSettles(l, Confirmed));
      && l !in p'.orphans && l !in p'.watch && l in p'.recs && !p'.recs[l].dir
      && Removals(p, l) == 0 && Removals(p', l) == 1
      && (l in p.orphans && l !in p.acquires ==> Load(p') == Load(p) - {l} && l in Load(p) && ActiveCount(p') == ActiveCount(p) - 1)
  {
    hide PoolInv, At, Load, SlotOk, ComesBack, Frees, SweepDone;
    var e := SweepSettles(l, Confirmed);
    SweptRecord(p, l);
    TidyIsDistinct(p);
    RemovalStep(p, e, l);
    ConfirmedRemoves(p, l);
    EndsBare(p, l);
    UnremovedYet(p, l);
    LoadStep(p, e);
    ConfirmedFrees(p, l);
  }

  lemma UnremovedYet(p: Pool, l: Launch)
    requires PoolInv(p) && l in p.recs && p.recs[l].dir
    ensures Removals(p, l) == 0
  {
    hide Booked, Within, Distinct, RecOk, LiveOk, PhaseOk;
    assert SlotOk(At(p, l));
  }

  lemma ConfirmedRemoves(p: Pool, l: Launch)
    requires l in p.recs && p.recs[l].sweeping && p.recs[l].settled && !p.recs[l].settleAfterSweep && !p.recs[l].session
    ensures Removes(At(p, l), SweepSettles(l, Confirmed))
  {
  }

  lemma ConfirmedFrees(p: Pool, l: Launch)
    requires l in p.recs && p.recs[l].sweeping && p.recs[l].settled && !p.recs[l].settleAfterSweep && !p.recs[l].session
    ensures l in p.orphans && l !in p.acquires ==> Frees(At(p, l), SweepSettles(l, Confirmed))
    ensures !ComesBack(p, SweepSettles(l, Confirmed))
  {
  }

  lemma EndsBare(p: Pool, l: Launch)
    requires l in p.recs && p.recs[l].sweeping && p.recs[l].settled && !p.recs[l].settleAfterSweep && !p.recs[l].session && Distinct(p.watch) && p.recs[l].dir
    ensures var p' := SweepDone(p, l, Confirmed);
      l !in p'.orphans && l !in p'.watch && l in p'.recs && !p'.recs[l].dir && p'.sessions == p.sessions && p'.orphans == p.orphans - {l}
  {
    hide Without;
    WithoutDrops(p.watch, l);
  }

  lemma RemovalsAre(p: Pool, l: Launch)
    ensures Removals(p, l) == RemovalsOf(At(p, l))
  {
  }

  lemma StepIsAcquire(p: Pool, e: Event)
    requires Enabled(p, e) && e.Acquires?
    ensures Step(p, e) == Acquire(p, e.l, e.tag) && Step(p, e).max == p.max && !ComesBack(p, e)
  {
  }

  lemma AdmittedIsLoaded(p: Pool, l: Launch, tag: Option<Consumer>)
    requires l !in p.meta && Admits(p, tag)
    ensures Load(Acquire(p, l, tag)) == Load(p) + {l}
  {
    hide Admits;
  }

  lemma AcquireLoads(p: Pool, l: Launch, tag: Option<Consumer>)
    requires PoolInv(p) && l !in p.meta
    ensures var p' := Acquire(p, l, tag);
      if Admits(p, tag) then Load(p') == Load(p) + {l} && |Load(p')| <= p.max else p' == p
  {
    hide PoolInv, Load, CountForConsumer;
    if Admits(p, tag) {
      ActiveIsLoaded(p);
      AdmittedIsLoaded(p, l, tag);
      UnionIsSmaller(Load(p), {l});
    }
  }

  /** No event but an admitted acquire gives anybody a slot. */
  lemma OccupantsShrink(p: Pool, e: Event)
    requires PoolInv(p) && Enabled(p, e) && !e.Acquires?
    ensures Occupants(Step(p, e)) <= Occupants(p) && Step(p, e).max == p.max
  {
    hide Tidy, Booked, Within;
    if e.Starts? || e.Throws? || e.Rejects? || e.TimesOut? || e.Launches? {
      hide Step, Enabled;
      LaunchEventKeeps(p, e);
    } else if e.Releases? || e.Dies? || e.Wedges? || e.Reconfirms? || e.Ticks? || e.ShutsDown? {
      hide Step, Enabled;
      SessionEventKeeps(p, e);
    } else if !e.Returns? {
      hide Step, Enabled;
      RecordEventKeeps(p, e);
    }
  }

  /** The load goes above the cap exactly when a record not counted in any way comes back to a full pool. */
  lemma LoadExceedsIff(p: Pool, e: Event)
    requires PoolInv(p) && Enabled(p, e) && |Load(p)| <= p.max
    ensures |Load(Step(p, e))| > p.max <==> ComesBack(p, e) && e.l !in Load(p) && |Load(p)| == p.max
  {
    hide PoolInv, Enabled, Step, Load, Admits;
    LoadStep(p, e);
    if ComesBack(p, e) {
      assert e.l in Load(p) ==> Load(p) + {e.l} == Load(p);
      assert e.l !in Load(p) ==> |Load(p) + {e.l}| == |Load(p)| + 1;
    } else if !(e.Acquires? && Admits(p, e.tag)) {
      SubsetIsSmaller(Load(Step(p, e)), Load(p));
    }
  }

  /** No record comes back, from a state where it was not counted, along this run. */
  predicate NobodyComesBack(p: Pool, es: seq<Event>)
    decreases |es|
  {
    es == [] ||
      var p1 := if Enabled(p, es[0]) then Step(p, es[0]) else p;
      (Enabled(p, es[0]) && ComesBack(p, es[0]) ==> es[0].l in Load(p)) && NobodyComesBack(p1, es[1..])
  }

  /** However long the run: the reported count stays within the cap unless some uncounted record came back. */
  lemma {:induction false} ActiveStaysWithin(p: Pool, es: seq<Event>)
    requires PoolInv(p) && |Load(p)| <= p.max && NobodyComesBack(p, es)
    ensures ActiveCount(Run(p, es)) <= |Load(Run(p, es))| <= p.max
    decreases |es|
  {
    hide PoolInv, Enabled, Step, Load, ComesBack;
    if es == [] {
      ActiveIsLoaded(p);
    } else {
      var p1 := if Enabled(p, es[0]) then Step(p, es[0]) else p;
      if Enabled(p, es[0]) {
        StepKeepsPool(p, es[0]);
        LoadStep(p, es[0]);
        LoadExceedsIff(p, es[0]);
      }
      ActiveStaysWithin(p1, es[1..]);
    }
  }

  /** From boot: without such a return the reported count never passes the cap. */
  lemma ReportedCountStaysWithin(max: nat, perConsumer: nat, es: seq<Event>)
    requires NobodyComesBack(EmptyPool(max, perConsumer), es)
    ensures ActiveCount(Run(EmptyPool(max, perConsumer), es)) <= max
  {
    hide PoolInv, Run, NobodyComesBack;
    var p := EmptyPool(max, perConsumer);
    EmptyPoolInv(max, perConsumer);
    assert Load(p) == {};
    ActiveStaysWithin(p, es);
    hide ActiveCount;
    RunKeepsPool(p, es);
  }
}
