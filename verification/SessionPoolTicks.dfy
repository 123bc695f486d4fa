/** What the reaper's tick and the shutdown start: no record is left unswept, and no session to itself. */
module PoolTicks {
  import opened Common
  import opened PoolModel
  import opened PoolInvariants
  import opened PoolTheorems
  import opened PoolSteps

  // -- a tick ---------------------------------------------------------------------------------------

  ghost predicate AllSwept(p: Pool, p': Pool, order: seq<Launch>) {
    forall l :: At(p', l) == if l in order && At(p, l).rec.Some? then SweptSlotOf(At(p, l)) else At(p, l)
  }

  lemma SweptTwice(s: Slot)
    requires s.rec.Some?
    ensures SweptSlotOf(s).rec.Some? && SweptSlotOf(SweptSlotOf(s)) == SweptSlotOf(s)
  {
    var r := s.rec.value;
    if r.sweeping || r.session || !Member(s) {
      assert SweptSlotOf(s) == s;
    } else if !r.dir {
      assert !Member(SweptSlotOf(s));
    } else {
      assert SweptSlotOf(s).rec.value.sweeping;
    }
  }

  lemma SweptFirst(p: Pool, p1: Pool, p': Pool, order: seq<Launch>)
    requires order != [] && AllSwept(p1, p', order[1..])
    requires forall k | k != order[0] :: At(p1, k) == At(p, k)
    requires At(p1, order[0]) == if At(p, order[0]).rec.Some? then SweptSlotOf(At(p, order[0])) else At(p, order[0])
    ensures AllSwept(p, p', order)
  {
    hide At, SweptSlotOf;
    forall l ensures At(p', l) == if l in order && At(p, l).rec.Some? then SweptSlotOf(At(p, l)) else At(p, l) {
      assert l in order <==> l == order[0] || l in order[1..];
      if l == order[0] && At(p, l).rec.Some? { SweptTwice(At(p, l)); }
    }
  }

  lemma OneSwept(p: Pool, l: Launch)
    requires PoolInv(p) && l in p.recs
    ensures PoolInv(SweepStart(p, l)) && Shut(p, SweepStart(p, l))
    ensures At(p, l).rec.Some? && At(SweepStart(p, l), l) == SweptSlotOf(At(p, l)) && forall k | k != l :: At(SweepStart(p, l), k) == At(p, k)
  {
    hide PoolInv, At, SweepStart;
    StepKeepsPool(p, Sweeps(l));
    TidyIsDistinct(p);
    AtRec(p, l);
    SweepStartSlot(p, l);
  }

  lemma {:induction false} SweepEachDoes(p: Pool, order: seq<Launch>)
    requires PoolInv(p)
    ensures PoolInv(SweepEach(p, order)) && AllSwept(p, SweepEach(p, order), order)
    decreases |order|
  {
    hide PoolInv, At, AllSwept, SweepStart, SweptSlotOf, Shut;
    if order == [] {
      NobodySwept(p);
    } else {
      var l := order[0];
      var p1 := if l in p.recs then SweepStart(p, l) else p;
      if l in p.recs { OneSwept(p, l); } else { AtRec(p, l); }
      SweepEachDoes(p1, order[1..]);
      SweptFirst(p, p1, SweepEach(p, order), order);
    }
  }

  lemma NobodySwept(p: Pool)
    ensures AllSwept(p, p, [])
  {
  }

  /** A sweep runs, or a core's own teardown is at work. */
  predicate SeenTo(s: Slot) { s.rec.Some? && (s.rec.value.sweeping || s.rec.value.session) }

  lemma MemberIsSeenTo(s: Slot)
    requires SlotOk(s) && Member(s)
    ensures s.rec.Some? && SeenTo(SweptSlotOf(s))
    ensures SweptSlotOf(s) == if SeenTo(s) then s else s.(rec := Some(s.rec.value.(sweeping := true)))
  {
  }

  /**
   After a tick, in every reachable state: nobody was uncounted or forgotten but the idle entries its cap
   evicted, and every record, counted or watched, has a sweep running or a core whose teardown owns it.
   */
  lemma TickSweepsEverybody(max: nat, perConsumer: nat, es: seq<Event>, order: seq<Launch>)
    requires var p1 := EnforceWatchCap(Run(EmptyPool(max, perConsumer), es), 0); forall l | l in p1.orphans || l in p1.watch :: l in order
    ensures var p := Run(EmptyPool(max, perConsumer), es); var p1 := EnforceWatchCap(p, 0); var p' := TickSweeps(p, order);
      && p'.orphans == p.orphans && (forall l :: l in p'.watch <==> l in p1.watch)
      && (forall l | l in p'.orphans || l in p'.watch :: SeenTo(At(p', l)))
      && (forall l | l in p.orphans && !SeenTo(At(p, l)) :: l in p.recs && l in p'.recs && p'.recs[l] == p.recs[l].(sweeping := true))
  {
    hide PoolInv, Run, SweepEach, AllSwept, SweptSlotOf, SlotOk, SeenTo;
    EmptyPoolInv(max, perConsumer);
    RunKeepsPool(EmptyPool(max, perConsumer), es);
    var p := Run(EmptyPool(max, perConsumer), es);
    var p1 := EnforceWatchCap(p, 0);
    StepKeepsPool(p, Ticks);
    SweepEachDoes(p1, order);
    var p' := TickSweeps(p, order);
    forall l ensures
      && (l in p'.orphans <==> l in p1.orphans) && (l in p'.watch <==> l in p1.watch)
      && (l in p1.orphans || l in p1.watch ==> SeenTo(At(p', l)))
      && (l in p1.orphans && !SeenTo(At(p1, l)) ==> l in p1.recs && l in p'.recs && p'.recs[l] == p1.recs[l].(sweeping := true))
    {
      SweptAt(p1, p', order, l);
    }
    CappedSeesAlike(p);
  }

  lemma CappedSeesAlike(p: Pool)
    ensures var p1 := EnforceWatchCap(p, 0);
      p1.orphans == p.orphans && p1.recs == p.recs && forall l :: SeenTo(At(p1, l)) == SeenTo(At(p, l))
  {
    hide Evict;
  }

  lemma InvIsSlotOk(p: Pool, l: Launch)
    requires PoolInv(p)
    ensures SlotOk(At(p, l))
  {
    hide SlotOk, Booked, Within, Distinct, At;
  }

  lemma SweptAt(p: Pool, p': Pool, order: seq<Launch>, l: Launch)
    requires PoolInv(p) && AllSwept(p, p', order) && (l in p.orphans || l in p.watch ==> l in order)
    ensures Member(At(p', l)) == Member(At(p, l)) && (l in p'.orphans <==> l in p.orphans) && (l in p'.watch <==> l in p.watch)
    ensures Member(At(p, l)) ==> SeenTo(At(p', l)) && l in p.recs && l in p'.recs
    ensures Member(At(p, l)) ==> p'.recs[l] == if SeenTo(At(p, l)) then p.recs[l] else p.recs[l].(sweeping := true)
  {
    hide PoolInv, SlotOk, SeenTo, SweptSlotOf;
    InvIsSlotOk(p, l);
    AtRec(p, l);
    AtRec(p', l);
    if Member(At(p, l)) { MemberIsSeenTo(At(p, l)); SeeingKeepsMember(At(p, l)); }
    else if At(p, l).rec.Some? { StrangerIsLeft(At(p, l)); }
  }

  lemma SeeingKeepsMember(s: Slot)
    ensures s.rec.Some? ==> Member(s.(rec := Some(s.rec.value.(sweeping := true)))) == Member(s)
  {
  }

  lemma StrangerIsLeft(s: Slot)
    requires !Member(s) && s.rec.Some?
    ensures SweptSlotOf(s) == s
  {
  }

  // -- a shutdown -----------------------------------------------------------------------------------

  /** Nobody's teardown is still to be begun. */
  predicate TornDown(s: Slot) { s.session ==> s.closing || s.unconfirmed }

  ghost predicate AllTornDown(p: Pool) { forall l :: TornDown(At(p, l)) }

  /** Whoever is no session any more is dead. */
  ghost predicate LeftDead(p: Pool, p': Pool) {
    forall l :: (l in p.sessions ==> l in p'.sessions || l in p'.dead) && (l in p.dead ==> l in p'.dead)
  }

  predicate StaysSlot(s: Slot, s': Slot) {
    (TornDown(s) ==> TornDown(s')) && (s.session ==> s'.session || s'.dead) && (s.dead ==> s'.dead)
  }

  /** An event about a record of its own leaves the session's part alone. */
  predicate SessionAlike(s: Slot, s': Slot) {
    s'.session == s.session && s'.closing == s.closing && s'.unconfirmed == s.unconfirmed && s'.dead == s.dead
  }

  lemma Edited(s: Slot, orphan: bool, watched: bool, rec: Option<Rec>, made: Option<DirFate>)
    ensures SessionAlike(s, s.(orphan := orphan, watched := watched, rec := rec, made := made))
  {
  }

  lemma SettledAlike(s: Slot)
    requires s.rec.Some?
    ensures SessionAlike(s, Settled(s))
  {
    hide SessionAlike, Removed;
    var s' := Settled(s);
    Edited(s, s'.orphan, s'.watched, s'.rec, s'.made);
    var r := s.rec.value;
    if r.sweeping {
    } else if r.dir && r.stamps != [] {
    } else if r.dir {
      assert s' == s.(orphan := false, watched := false, rec := Some(r.(dir := false)), made := Some(Removed(s.made)));
    } else {
    }
  }

  lemma SweptAlike(s: Slot)
    requires s.rec.Some?
    ensures SessionAlike(s, SweptSlotOf(s))
  {
    hide SessionAlike;
    var s' := SweptSlotOf(s);
    Edited(s, s'.orphan, s'.watched, s'.rec, s'.made);
    var r := s.rec.value;
    if r.sweeping || r.session || !Member(s) {
      assert s' == s;
    } else if !r.dir {
      assert s' == s.(orphan := false, watched := false);
    } else {
      assert s' == s.(rec := Some(r.(sweeping := true)));
    }
  }

  lemma FinalAlike(s: Slot)
    requires s.rec.Some?
    ensures SessionAlike(s, FinalSlotOf(s))
  {
    hide SessionAlike, Removed;
    var s' := FinalSlotOf(s);
    Edited(s, s'.orphan, s'.watched, s'.rec, s'.made);
  }

  lemma VerdictAlike(s: Slot, o: Outcome)
    requires s.rec.Some?
    ensures SessionAlike(s, JudgedSlotOf(s, o))
  {
    hide Settled, FinalSlotOf, Judged, Dropped;
    var r := Judged(s.rec.value, o);
    SettledAlike(s.(rec := Some(r.(settleAfterSweep := false))));
    FinalAlike(s.(rec := Some(r)));
  }

  lemma ErroredAlike(s: Slot)
    requires s.rec.Some?
    ensures SessionAlike(s, ErroredSlotOf(s))
  {
    hide Settled;
    SettledAlike(s.(rec := Some(s.rec.value.(sweeping := false, settleAfterSweep := false))));
  }

  lemma LaunchStays(s: Slot, e: Event, tag: Option<Consumer>)
    requires e.Starts? || e.Throws? || e.Rejects? || e.TimesOut? || e.Launches? || e.Returns?
    ensures SessionAlike(s, NextSlot(s, e, tag, true))
  {
    hide FailedSlotOf, TimedOutSlotOf, LaunchedSlotOf, RacingDir, Making, NewRec;
    match e {
      case Throws(_, dir) => FailedAlike(s, dir, tag);
      case Rejects(_) => FailedAlike(s, RacingDir(s), tag);
      case TimesOut(_) => TimedOutAlike(s, tag);
      case Launches(_) => LaunchedAlike(s);
      case _ =>
    }
  }

  lemma FailedAlike(s: Slot, dir: bool, tag: Option<Consumer>)
    ensures SessionAlike(s, FailedSlotOf(s, dir, tag))
  {
    hide NewRec, Making;
  }

  lemma TimedOutAlike(s: Slot, tag: Option<Consumer>)
    ensures SessionAlike(s, TimedOutSlotOf(s, tag))
  {
    hide NewRec, RacingDir, SessionAlike;
    var f := s.(phase := Some(Returning(false)));
    var rec := NewRec(RacingDir(s), tag, false);
    Edited(f, true, f.watched, Some(rec.(sweeping := true)), f.made);
    Edited(f, false, false, Some(rec), f.made);
    if rec.dir { assert TimedOutSlotOf(s, tag) == f.(orphan := true, rec := Some(rec.(sweeping := true))); }
    else { assert TimedOutSlotOf(s, tag) == f.(orphan := false, watched := false, rec := Some(rec)); }
    RephasedAlike(s, Some(Returning(false)), TimedOutSlotOf(s, tag));
  }

  lemma RephasedAlike(s: Slot, phase: Option<Phase>, s': Slot)
    ensures SessionAlike(s.(phase := phase), s') ==> SessionAlike(s, s')
  {
  }

  lemma LaunchedAlike(s: Slot)
    ensures SessionAlike(s, LaunchedSlotOf(s, true))
  {
    hide NewRec, RacingDir;
  }

  lemma LateStays(s: Slot, e: Event, tag: Option<Consumer>)
    requires (e.LateResolves? || e.LateRejects? || e.Sweeps?) && s.rec.Some?
    ensures SessionAlike(s, NextSlot(s, e, tag, true))
  {
    hide SweptSlotOf;
    SweptAlike(s);
    if e.LateRejects? {
      SweptAlike(s.(fate := Some(Rejected), rec := Some(s.rec.value.(settled := true)), orphan := s.orphan || !s.watched));
    }
  }

  lemma DeathStays(s: Slot, e: Event, tag: Option<Consumer>)
    requires (e.OrphanDies? ==> s.rec.Some?) && (e.OrphanDies? || e.OrphanWedges? || e.Releases? || e.Dies? || e.Wedges? || e.Reconfirms?)
    ensures StaysSlot(s, NextSlot(s, e, tag, true))
  {
    hide Settled;
    if e.OrphanDies? { SettledAlike(s.(dead := true, tearing := false)); }
    if e.Reconfirms? {
      var s1 := Undirected(s.(session := false, unconfirmed := false, dead := true));
      if s1.rec.Some? { SettledAlike(s1); }
    }
  }

  lemma AlikeStays(s: Slot, s': Slot)
    requires SessionAlike(s, s')
    ensures StaysSlot(s, s')
  {
  }

  lemma SlotStaysTornDown(s: Slot, e: Event, tag: Option<Consumer>)
    requires About(e)
    requires e.LateResolves? || e.LateRejects? || e.Sweeps? || e.SweepSettles? || e.SweepFails? || e.OrphanDies? ==> s.rec.Some?
    ensures StaysSlot(s, NextSlot(s, e, tag, true))
  {
    hide NextSlot, SessionAlike, StaysSlot;
    if e.OrphanDies? || e.OrphanWedges? || e.Releases? || e.Dies? || e.Wedges? || e.Reconfirms? {
      DeathStays(s, e, tag);
    } else {
      if e.LateResolves? || e.LateRejects? || e.Sweeps? { LateStays(s, e, tag); }
      else if e.SweepSettles? || e.SweepFails? { SweptStays(s, e, tag); }
      else { LaunchStays(s, e, tag); }
      AlikeStays(s, NextSlot(s, e, tag, true));
    }
  }

  lemma SweptStays(s: Slot, e: Event, tag: Option<Consumer>)
    requires (e.SweepSettles? || e.SweepFails?) && s.rec.Some?
    ensures SessionAlike(s, NextSlot(s, e, tag, true))
  {
    hide JudgedSlotOf, ErroredSlotOf, SessionAlike;
    if e.SweepSettles? { VerdictAlike(s, e.o); } else { ErroredAlike(s); }
  }

  lemma StepStaysTornDown(p: Pool, e: Event)
    requires PoolInv(p) && Enabled(p, e) && p.shuttingDown && AllTornDown(p)
    ensures AllTornDown(Step(p, e)) && LeftDead(p, Step(p, e))
  {
    hide PoolInv, Step, NextSlot, Enabled, TornDown;
    if About(e) {
      StepBecomes(p, e);
      SlotStaysTornDown(At(p, e.l), e, TagOf(p, e.l));
      OthersStay(p, Step(p, e), e.l);
    } else {
      RestStays(p, e);
    }
    StaysMeans(p, Step(p, e));
  }

  /** One step, one launch. */
  ghost predicate Stays(p: Pool, p': Pool, l: Launch) { StaysSlot(At(p, l), At(p', l)) }

  lemma StaysMeans(p: Pool, p': Pool)
    requires AllTornDown(p) && forall l :: Stays(p, p', l)
    ensures AllTornDown(p') && LeftDead(p, p')
  {
    hide TornDown;
    forall l ensures TornDown(At(p', l)) && (l in p.sessions ==> l in p'.sessions || l in p'.dead) && (l in p.dead ==> l in p'.dead) {
      assert Stays(p, p', l);
    }
  }

  lemma ForgottenStays(p: Pool, p': Pool, l: Launch)
    requires At(p', l) == At(p, l) || At(p', l) == At(p, l).(watched := false)
    ensures Stays(p, p', l)
  {
    hide At;
  }

  lemma RestStays(p: Pool, e: Event)
    requires PoolInv(p) && Enabled(p, e) && p.shuttingDown && !About(e)
    ensures forall l :: Stays(p, Step(p, e), l)
  {
    hide PoolInv, At, Stays, Evict;
    if e.Acquires? {
      assert Step(p, e) == p;
      forall l ensures Stays(p, Step(p, e), l) { ForgottenStays(p, p, l); }
    } else {
      RestBecomes(p, e);
      forall l ensures Stays(p, Step(p, e), l) {
        assert Others(p, Step(p, e), l);
        ForgottenStays(p, Step(p, e), l);
      }
    }
  }

  lemma OthersStay(p: Pool, p': Pool, l: Launch)
    requires Others(p, p', l)
    ensures forall k | k != l :: Stays(p, p', k)
  {
    hide At, Stays;
    forall k | k != l ensures Stays(p, p', k) { ForgottenStays(p, p', k); }
  }

  lemma {:induction false} RunStaysTornDown(p: Pool, es: seq<Event>)
    requires PoolInv(p) && p.shuttingDown && AllTornDown(p)
    ensures AllTornDown(Run(p, es)) && LeftDead(p, Run(p, es)) && Run(p, es).sessions <= p.sessions
    decreases |es|
  {
    hide PoolInv, Enabled, Step, AllTornDown, LeftDead;
    if es == [] {
      NobodyLeft(p);
    } else {
      var p1 := if Enabled(p, es[0]) then Step(p, es[0]) else p;
      NobodyLeft(p);
      if Enabled(p, es[0]) { StepKeepsPool(p, es[0]); StepStaysTornDown(p, es[0]); }
      RunStaysTornDown(p1, es[1..]);
      LeavingComposes(p, p1, Run(p, es));
    }
  }

  lemma NobodyLeft(p: Pool)
    ensures LeftDead(p, p)
  {
  }

  lemma LeavingComposes(p: Pool, p1: Pool, p2: Pool)
    requires LeftDead(p, p1) && LeftDead(p1, p2)
    ensures LeftDead(p, p2)
  {
  }

  function Released(p: Pool, order: seq<Launch>): set<Launch> {
    set l | l in order && l in p.sessions && l !in p.unconfirmed
  }

  lemma OneReleased(p: Pool, l: Launch)
    ensures BeginTeardown(p, l) == p.(closing := p.closing + Released(p, [l]))
  {
    if l !in p.sessions || l in p.closing || l in p.unconfirmed {
      assert p.closing + Released(p, [l]) == p.closing;
      assert p.(closing := p.closing) == p;
    } else {
      assert Released(p, [l]) == {l};
    }
  }

  lemma {:induction false} ReleaseEachDoes(p: Pool, order: seq<Launch>)
    ensures ReleaseEach(p, order) == p.(closing := p.closing + Released(p, order))
    decreases |order|
  {
    hide BeginTeardown;
    if order == [] {
      assert p.closing + Released(p, order) == p.closing;
      assert p.(closing := p.closing) == p;
    } else {
      OneReleased(p, order[0]);
      var p1 := BeginTeardown(p, order[0]);
      ReleaseEachDoes(p1, order[1..]);
      ReleasedJoin(p, p1, order);
    }
  }

  lemma ReleasedJoin(p: Pool, p1: Pool, order: seq<Launch>)
    requires order != [] && p1.sessions == p.sessions && p1.unconfirmed == p.unconfirmed && p1.closing == p.closing + Released(p, [order[0]])
    ensures p1.closing + Released(p1, order[1..]) == p.closing + Released(p, order)
  {
    assert forall l :: l in order <==> l == order[0] || l in order[1..];
  }

  lemma {:induction false} ReleaseEachIsRun(p: Pool, order: seq<Launch>)
    requires PoolInv(p)
    ensures PoolInv(ReleaseEach(p, order))
    decreases |order|
  {
    hide PoolInv, BeginTeardown;
    if order != [] {
      StepKeepsPool(p, Releases(order[0]));
      assert Step(p, Releases(order[0])) == BeginTeardown(p, order[0]);
      ReleaseEachIsRun(BeginTeardown(p, order[0]), order[1..]);
    }
  }

  /**
   Once a shutdown has begun the teardown of every session that was left, then however the run goes on: no
   session appears, each one still there is being torn down or awaits its reconfirm, and each one that is
   not has a confirmed death.
   */
  lemma ShutdownLeavesNobody(max: nat, perConsumer: nat, es: seq<Event>, order: seq<Launch>, more: seq<Event>)
    requires var p := Run(EmptyPool(max, perConsumer), es);
      p.shuttingDown && forall l | l in p.sessions && l !in p.closing && l !in p.unconfirmed :: l in order
    ensures var p := Run(EmptyPool(max, perConsumer), es); var p' := Run(ReleaseEach(p, order), more);
      && p'.sessions <= p.sessions
      && (forall l | l in p'.sessions :: l in p'.closing || l in p'.unconfirmed)
      && (forall l | l in p.sessions && l !in p'.sessions :: l in p'.dead)
  {
    hide PoolInv, Run, ReleaseEach;
    EmptyPoolInv(max, perConsumer);
    RunKeepsPool(EmptyPool(max, perConsumer), es);
    var p := Run(EmptyPool(max, perConsumer), es);
    ReleaseEachDoes(p, order);
    ReleaseEachIsRun(p, order);
    var p1 := ReleaseEach(p, order);
    assert AllTornDown(p1);
    RunStaysTornDown(p1, more);
    var p' := Run(p1, more);
    forall l | l in p'.sessions ensures l in p'.closing || l in p'.unconfirmed { assert TornDown(At(p', l)); }
  }
}
