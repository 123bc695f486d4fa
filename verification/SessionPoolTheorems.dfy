/** The theorems about every run of the session pool. */
module PoolTheorems {
  import opened Common
  import opened GatewayConfig
  import opened PoolModel
  import opened PoolInvariants

  datatype Event =
    | Acquires(l: Launch, tag: Option<Consumer>)
    | Starts(l: Launch, dir: bool)
    | Throws(l: Launch, dir: bool)
    | Rejects(l: Launch)
    | TimesOut(l: Launch)
    | Launches(l: Launch)
    | Returns(l: Launch)
    | LateResolves(l: Launch)
    | LateRejects(l: Launch)
    | Sweeps(l: Launch)
    | SweepSettles(l: Launch, o: Outcome)
    | SweepFails(l: Launch)
    | OrphanDies(l: Launch)
    | OrphanWedges(l: Launch)
    | Releases(l: Launch)
    | Dies(l: Launch)
    | Wedges(l: Launch)
    | Reconfirms(l: Launch)
    | Ticks
    | ShutsDown

  /** A death is reported only by a close or a kill that confirmed it. */
  predicate Enabled(p: Pool, e: Event) {
    match e
    case Acquires(l, _) => l !in p.meta
    case Starts(l, _) => l in p.acquires && l in p.meta && p.acquires[l] == Minting
    case Throws(l, _) => l in p.acquires && l in p.meta && p.acquires[l] == Minting
    case Rejects(l) => l in p.acquires && l in p.meta && p.acquires[l].Racing?
    case TimesOut(l) => l in p.acquires && l in p.meta && p.acquires[l].Racing?
    case Launches(l) => l in p.acquires && l in p.meta && p.acquires[l].Racing?
    case Returns(l) => l in p.acquires && l in p.meta && p.acquires[l].Returning?
    case LateResolves(l) => l in p.recs && l in p.fate && p.fate[l] == Pending
    case LateRejects(l) => l in p.recs && l in p.fate && p.fate[l] == Pending
    case Sweeps(l) => l in p.recs
    case SweepSettles(l, _) => l in p.recs && p.recs[l].sweeping
    case SweepFails(l) => l in p.recs && p.recs[l].sweeping
    case OrphanDies(l) => l in p.tearing && l in p.recs
    case OrphanWedges(l) => l in p.tearing && l in p.recs
    case Dies(l) => l in p.closing
    case Wedges(l) => l in p.closing
    case Reconfirms(l) => l in p.unconfirmed || l in p.dead
    case _ => true
  }

  function Step(p: Pool, e: Event): Pool
    requires Enabled(p, e)
  {
    match e
    case Acquires(l, tag) => Acquire(p, l, tag)
    case Starts(l, dir) => LaunchStarts(p, l, dir)
    case Throws(l, dir) => LaunchFailed(p, l, dir)
    case Rejects(l) => LaunchFailed(p, l, p.acquires[l].dir)
    case TimesOut(l) => LaunchTimedOut(p, l, p.acquires[l].dir)
    case Launches(l) => Launched(p, l, p.acquires[l].dir)
    case Returns(l) => Return(p, l)
    case LateResolves(l) => LateResolve(p, l)
    case LateRejects(l) => LateReject(p, l)
    case Sweeps(l) => SweepStart(p, l)
    case SweepSettles(l, o) => SweepDone(p, l, o)
    case SweepFails(l) => SweepError(p, l)
    case OrphanDies(l) => OrphanTeardownOk(p, l)
    case OrphanWedges(l) => OrphanTeardownFails(p, l)
    case Releases(l) => BeginTeardown(p, l)
    case Dies(l) => TeardownOk(p, l)
    case Wedges(l) => TeardownFails(p, l)
    case Reconfirms(l) => ReconfirmOk(p, l)
    case Ticks => EnforceWatchCap(p, 0)
    case ShutsDown => p.(shuttingDown := true)
  }

  // -- who occupies a slot ------------------------------------------------------------------------

  predicate Unregistered(p: Pool, l: Launch) { l in p.acquires && p.acquires[l] != Returning(true) }

  /** Registered sessions and launches not yet registered. */
  function Occupants(p: Pool): set<Launch> {
    p.sessions + set l | l in p.acquires && Unregistered(p, l)
  }

  function OccupantsOf(p: Pool, c: Consumer): set<Launch> {
    set l | l in Occupants(p) && l in p.meta && p.meta[l] == Some(c)
  }

  function AcquiresOf(p: Pool, c: Consumer): set<Launch> {
    set l | l in p.acquires && l in p.meta && p.meta[l] == Some(c)
  }

  /** The counters are exact. */
  ghost predicate Booked(p: Pool) {
    && p.acquires.Keys <= p.meta.Keys && p.fate.Keys <= p.meta.Keys
    && p.reserved == |p.acquires.Keys|
    && (forall c :: ReservedBy(p, c) == |AcquiresOf(p, c)|)
  }

  ghost predicate Within(p: Pool) {
    && |Occupants(p)| <= p.max
    && (forall c :: |OccupantsOf(p, c)| <= p.perConsumer)
  }

  ghost predicate PoolInv(p: Pool) { Tidy(p) && Booked(p) && Within(p) }

  /** A step that admits nobody: no counter moves and nobody new occupies a slot. */
  ghost predicate AdmitsNobody(p: Pool, p': Pool) {
    && p'.max == p.max && p'.perConsumer == p.perConsumer && p'.meta == p.meta
    && p'.reserved == p.reserved && p'.reservedBy == p.reservedBy
    && p'.acquires.Keys == p.acquires.Keys && p'.fate.Keys <= p.fate.Keys + p.acquires.Keys
    && Occupants(p') <= Occupants(p)
    && (p.shuttingDown ==> p'.shuttingDown && p'.sessions <= p.sessions)
  }

  lemma SubsetIsSmaller<T>(a: set<T>, b: set<T>)
    requires a <= b
    ensures |a| <= |b|
  {
    assert b == a + (b - a);
  }

  lemma NobodyKeeps(p: Pool, p': Pool)
    requires Booked(p) && Within(p) && AdmitsNobody(p, p')
    ensures Booked(p') && Within(p')
  {
    hide Occupants;
    forall c: Consumer ensures ReservedBy(p', c) == |AcquiresOf(p', c)| {
      assert AcquiresOf(p', c) == AcquiresOf(p, c);
      assert ReservedBy(p, c) == |AcquiresOf(p, c)|;
    }
    SubsetIsSmaller(Occupants(p'), Occupants(p));
    forall c: Consumer ensures |OccupantsOf(p', c)| <= p'.perConsumer {
      assert |OccupantsOf(p, c)| <= p.perConsumer;
      SubsetIsSmaller(OccupantsOf(p', c), OccupantsOf(p, c));
    }
  }

  lemma SettleAdmitsNobody(p: Pool, l: Launch)
    requires l in p.recs && Distinct(p.watch)
    ensures AdmitsNobody(p, SettleReaped(p, l))
  {
    hide SettleReaped, Elsewhere, At, Distinct;
    SettleSlot(p, l);
  }

  lemma SweepStartAdmitsNobody(p: Pool, l: Launch)
    requires l in p.recs && Distinct(p.watch)
    ensures AdmitsNobody(p, SweepStart(p, l))
  {
    hide SweepStart, Elsewhere, At, Distinct;
    SweepStartSlot(p, l);
  }

  lemma NobodyTransitive(a: Pool, b: Pool, c: Pool)
    requires AdmitsNobody(a, b) && AdmitsNobody(b, c)
    ensures AdmitsNobody(a, c)
  {
    hide Occupants;
  }

  lemma EnqueueAdmitsNobody(p: Pool, l: Launch, rec: Rec)
    requires Distinct(p.watch)
    ensures AdmitsNobody(p, Enqueue(p, l, rec))
  {
    hide SweepStart, Distinct;
    SweepStartAdmitsNobody(p.(recs := p.recs[l := rec], orphans := p.orphans + {l}), l);
  }

  lemma StartAdmitsNobody(p: Pool, l: Launch, dir: bool)
    requires l in p.acquires && (p.acquires[l] == Minting || p.acquires[l].Racing?)
    ensures AdmitsNobody(p, LaunchStarts(p, l, dir))
  {
  }

  lemma LaunchedAdmitsNobody(p: Pool, l: Launch, dir: bool)
    requires l in p.acquires && p.acquires[l].Racing?
    ensures AdmitsNobody(p, Launched(p, l, dir))
  {
  }

  lemma EndedAdmitsNobody(p: Pool, l: Launch, d: map<Launch, DirFate>)
    requires l in p.acquires && p.acquires[l] != Returning(true)
    ensures AdmitsNobody(p, p.(acquires := p.acquires[l := Returning(false)], fate := p.fate[l := Rejected], dirs := d))
    ensures AdmitsNobody(p, p.(acquires := p.acquires[l := Returning(false)]))
  {
  }

  lemma FailedAdmitsNobody(p: Pool, l: Launch, dir: bool)
    requires l in p.acquires && l in p.meta && (p.acquires[l] == Minting || p.acquires[l].Racing?) && Distinct(p.watch)
    ensures AdmitsNobody(p, LaunchFailed(p, l, dir)) && AdmitsNobody(p, LaunchTimedOut(p, l, dir))
  {
    hide Enqueue, Distinct, AdmitsNobody;
    EndedAdmitsNobody(p, l, Minted(p, l, dir));
    var p1 := p.(acquires := p.acquires[l := Returning(false)], fate := p.fate[l := Rejected], dirs := Minted(p, l, dir));
    EnqueueAdmitsNobody(p1, l, NewRec(true, p.meta[l], true));
    if dir { NobodyTransitive(p, p1, LaunchFailed(p, l, dir)); }
    var p2 := p.(acquires := p.acquires[l := Returning(false)]);
    EnqueueAdmitsNobody(p2, l, NewRec(dir, p.meta[l], false));
    NobodyTransitive(p, p2, LaunchTimedOut(p, l, dir));
  }

  lemma RecordEditsAdmitNobody(p: Pool, l: Launch, r: Rec, o: set<Launch>, w: seq<Launch>, m: map<Launch, DirFate>, d: set<Launch>, t: set<Launch>, u: set<Launch>)
    ensures AdmitsNobody(p, p.(recs := p.recs[l := r], orphans := o, watch := w, dirs := m, dead := d, tearing := t, unconfirmed := u))
  {
  }

  lemma LateAdmitsNobody(p: Pool, l: Launch)
    requires l in p.recs && l in p.fate && Distinct(p.watch)
    ensures AdmitsNobody(p, LateResolve(p, l)) && AdmitsNobody(p, LateReject(p, l))
  {
    hide SweepStart, Distinct;
    SweepStartAdmitsNobody(LateRejected(p, l), l);
  }

  lemma ResumeAdmitsNobody(p: Pool, l: Launch, r: Rec)
    requires Distinct(p.watch)
    ensures AdmitsNobody(p, SettleReaped(p.(recs := p.recs[l := r]), l))
  {
    hide AdmitsNobody, SettleReaped, Distinct;
    var p1 := p.(recs := p.recs[l := r]);
    SettleAdmitsNobody(p1, l);
    RecordEditsAdmitNobody(p, l, r, p.orphans, p.watch, p.dirs, p.dead, p.tearing, p.unconfirmed);
    NobodyTransitive(p, p1, SettleReaped(p1, l));
  }

  lemma VerdictEdits(p: Pool, l: Launch, o: Outcome)
    requires l in p.recs && p.recs[l].sweeping && !p.recs[l].settleAfterSweep
    ensures l in SweepDone(p, l, o).recs
    ensures var q := SweepDone(p, l, o);
      q == p.(recs := p.recs[l := q.recs[l]], orphans := q.orphans, watch := q.watch, dirs := q.dirs)
  {
    hide Finalize, WatchLaunch, Without;
    var p1 := p.(recs := p.recs[l := p.recs[l].(sweeping := false, stamps := if o.Unconfirmed? then o.owed else [])]);
    FinalizeEdits(p1, l);
    WatchEdits(p1.(orphans := p1.orphans - {l}), l);
  }

  lemma FinalizeEdits(p: Pool, l: Launch)
    requires l in p.recs
    ensures l in Finalize(p, l).recs
    ensures var q := Finalize(p, l); q == p.(recs := p.recs[l := q.recs[l]], orphans := q.orphans, watch := q.watch, dirs := q.dirs)
  {
    hide Without;
    assert p.recs[l := p.recs[l]] == p.recs;
  }

  lemma WatchEdits(p: Pool, l: Launch)
    ensures var q := WatchLaunch(p, l); q == p.(watch := q.watch)
  {
    hide Evict;
  }

  lemma SweepDoneAdmitsNobody(p: Pool, l: Launch, o: Outcome)
    requires l in p.recs && p.recs[l].sweeping && Distinct(p.watch)
    ensures AdmitsNobody(p, SweepDone(p, l, o))
  {
    hide AdmitsNobody, SettleReaped, Distinct, Finalize, WatchLaunch, Without;
    if p.recs[l].settleAfterSweep {
      ResumeAdmitsNobody(p, l, p.recs[l].(sweeping := false, settleAfterSweep := false, stamps := if o.Unconfirmed? then o.owed else []));
    } else {
      VerdictEdits(p, l, o);
      var q := SweepDone(p, l, o);
      RecordEditsAdmitNobody(p, l, q.recs[l], q.orphans, q.watch, q.dirs, p.dead, p.tearing, p.unconfirmed);
    }
  }

  lemma SweepErrorAdmitsNobody(p: Pool, l: Launch)
    requires l in p.recs && p.recs[l].sweeping && Distinct(p.watch)
    ensures AdmitsNobody(p, SweepError(p, l))
  {
    hide AdmitsNobody, SettleReaped, Distinct, Without;
    if p.recs[l].settleAfterSweep {
      ResumeAdmitsNobody(p, l, p.recs[l].(sweeping := false, settleAfterSweep := false));
    } else {
      var q := SweepError(p, l);
      RecordEditsAdmitNobody(p, l, p.recs[l].(sweeping := false), q.orphans, q.watch, p.dirs, p.dead, p.tearing, p.unconfirmed);
    }
  }

  lemma ReapedAdmitsNobody(p: Pool, l: Launch)
    ensures AdmitsNobody(p, Reaped(p, l))
  {
  }

  lemma TeardownAdmitsNobody(p: Pool, l: Launch)
    requires l in p.recs && Distinct(p.watch)
    ensures AdmitsNobody(p, OrphanTeardownOk(p, l)) && AdmitsNobody(p, OrphanTeardownFails(p, l))
  {
    hide AdmitsNobody, SettleReaped, Distinct, Reaped;
    var p1 := p.(dead := p.dead + {l}, tearing := p.tearing - {l});
    assert p1 == p.(recs := p.recs[l := p.recs[l]], dead := p1.dead, tearing := p1.tearing);
    RecordEditsAdmitNobody(p, l, p.recs[l], p.orphans, p.watch, p.dirs, p1.dead, p1.tearing, p.unconfirmed);
    SettleAdmitsNobody(p1, l);
    NobodyTransitive(p, p1, SettleReaped(p1, l));
    ReapedAdmitsNobody(SettleReaped(p1, l), l);
    NobodyTransitive(p, SettleReaped(p1, l), OrphanTeardownOk(p, l));
    var p2 := p.(unconfirmed := p.unconfirmed + {l}, tearing := p.tearing - {l});
    assert p2 == p.(recs := p.recs[l := p.recs[l]], unconfirmed := p2.unconfirmed, tearing := p2.tearing);
    RecordEditsAdmitNobody(p, l, p.recs[l], p.orphans, p.watch, p.dirs, p.dead, p2.tearing, p2.unconfirmed);
    ReapedAdmitsNobody(p2, l);
    NobodyTransitive(p, p2, OrphanTeardownFails(p, l));
  }

  lemma OccupiedAlike(p: Pool, p': Pool)
    requires p'.sessions == p.sessions && p'.acquires == p.acquires
    ensures Occupants(p') == Occupants(p)
  {
  }

  lemma ReleaseAdmitsNobody(p: Pool, l: Launch)
    ensures AdmitsNobody(p, BeginTeardown(p, l))
  {
    hide Occupants;
    OccupiedAlike(p, BeginTeardown(p, l));
  }

  lemma WedgeAdmitsNobody(p: Pool, l: Launch)
    ensures AdmitsNobody(p, TeardownFails(p, l))
  {
    hide Occupants;
    OccupiedAlike(p, TeardownFails(p, l));
  }

  lemma RemovalAdmitsNobody(p: Pool, l: Launch)
    ensures AdmitsNobody(p, RemoveOwnedDir(p, l))
  {
    hide Occupants;
    OccupiedAlike(p, RemoveOwnedDir(p, l));
  }

  lemma DeathAdmitsNobody(p: Pool, l: Launch)
    ensures AdmitsNobody(p, TeardownOk(p, l))
  {
    hide RemoveOwnedDir;
    var p1 := p.(sessions := p.sessions - {l}, closing := p.closing - {l}, dead := p.dead + {l});
    assert AdmitsNobody(p, p1);
    RemovalAdmitsNobody(p1, l);
    NobodyTransitive(p, p1, TeardownOk(p, l));
  }

  lemma ReconfirmAdmitsNobody(p: Pool, l: Launch)
    requires Distinct(p.watch)
    ensures AdmitsNobody(p, ReconfirmOk(p, l))
  {
    hide SettleReaped, Distinct;
    var p1 := RemoveOwnedDir(p.(sessions := p.sessions - {l}, unconfirmed := p.unconfirmed - {l}, dead := p.dead + {l}), l);
    assert AdmitsNobody(p, p1);
    if l in p1.orphans && l in p1.recs && p1.recs[l].session { SettleAdmitsNobody(p1, l); }
  }

  lemma TickAdmitsNobody(p: Pool)
    ensures AdmitsNobody(p, EnforceWatchCap(p, 0)) && AdmitsNobody(p, p.(shuttingDown := true))
  {
    hide Evict;
  }

  // -- admission and return -----------------------------------------------------------------------

  lemma OccupantsCounted(p: Pool)
    requires Booked(p)
    ensures |Occupants(p)| <= |p.sessions| + p.reserved
    ensures forall c :: |OccupantsOf(p, c)| <= |SessionsOf(p, c)| + ReservedBy(p, c)
  {
    var un := set l | l in p.acquires && Unregistered(p, l);
    SubsetIsSmaller(un, p.acquires.Keys);
    SubsetIsSmaller(Occupants(p), p.sessions + un);
    UnionIsSmaller(p.sessions, un);
    forall c: Consumer ensures |OccupantsOf(p, c)| <= |SessionsOf(p, c)| + ReservedBy(p, c) {
      SubsetIsSmaller(OccupantsOf(p, c), SessionsOf(p, c) + AcquiresOf(p, c));
      UnionIsSmaller(SessionsOf(p, c), AcquiresOf(p, c));
    }
  }

  lemma UnionIsSmaller<T>(a: set<T>, b: set<T>)
    ensures |a + b| <= |a| + |b|
  {
    assert a + b == a + (b - a);
    SubsetIsSmaller(b - a, b);
  }

  lemma AcquireBooksOne(p: Pool, l: Launch, tag: Option<Consumer>, c: Consumer)
    requires p.acquires.Keys <= p.meta.Keys && l !in p.meta && ReservedBy(p, c) == |AcquiresOf(p, c)|
    ensures ReservedBy(Acquire(p, l, tag), c) == |AcquiresOf(Acquire(p, l, tag), c)|
  {
    hide Admits;
    var p' := Acquire(p, l, tag);
    if Admits(p, tag) {
      if tag == Some(c) {
        assert AcquiresOf(p', c) == AcquiresOf(p, c) + {l};
      } else {
        assert AcquiresOf(p', c) == AcquiresOf(p, c);
      }
    }
  }

  lemma AcquireBooksEach(p: Pool, l: Launch, tag: Option<Consumer>)
    requires Booked(p) && l !in p.meta
    ensures forall c :: ReservedBy(Acquire(p, l, tag), c) == |AcquiresOf(Acquire(p, l, tag), c)|
  {
    hide AcquiresOf, ReservedBy, Acquire;
    forall c: Consumer ensures ReservedBy(Acquire(p, l, tag), c) == |AcquiresOf(Acquire(p, l, tag), c)| {
      AcquireBooksOne(p, l, tag, c);
    }
  }

  lemma AcquireGrows(p: Pool, l: Launch, tag: Option<Consumer>)
    requires p.acquires.Keys <= p.meta.Keys && p.fate.Keys <= p.meta.Keys && l !in p.meta && Admits(p, tag)
    ensures var p' := Acquire(p, l, tag);
      && |p'.acquires.Keys| == |p.acquires.Keys| + 1 && p'.reserved == p.reserved + 1
      && p'.acquires.Keys <= p'.meta.Keys && p'.fate.Keys <= p'.meta.Keys
  {
    hide Admits;
    assert Acquire(p, l, tag).acquires.Keys == p.acquires.Keys + {l};
  }

  lemma AcquireBooked(p: Pool, l: Launch, tag: Option<Consumer>)
    requires Booked(p) && l !in p.meta && Admits(p, tag)
    ensures Booked(Acquire(p, l, tag))
  {
    hide Admits, AcquiresOf, ReservedBy, Acquire;
    AcquireGrows(p, l, tag);
    AcquireBooksEach(p, l, tag);
  }

  lemma AcquireAddsOne(p: Pool, l: Launch, tag: Option<Consumer>)
    requires l !in p.meta && Booked(p)
    ensures var p' := Acquire(p, l, tag);
      && Occupants(p') <= Occupants(p) + {l}
      && forall c: Consumer :: OccupantsOf(p', c) <= OccupantsOf(p, c) + (if tag == Some(c) then {l} else {})
  {
  }

  lemma AcquireWithin(p: Pool, l: Launch, tag: Option<Consumer>)
    requires Booked(p) && Within(p) && l !in p.meta && Admits(p, tag)
    ensures Within(Acquire(p, l, tag))
  {
    hide OccupantsOf, Occupants, Booked, SessionsOf, ReservedBy;
    var p' := Acquire(p, l, tag);
    OccupantsCounted(p);
    AcquireAddsOne(p, l, tag);
    SubsetIsSmaller(Occupants(p'), Occupants(p) + {l});
    UnionIsSmaller(Occupants(p), {l});
    forall c: Consumer ensures |OccupantsOf(p', c)| <= p'.perConsumer {
      assert |OccupantsOf(p, c)| <= p.perConsumer && |OccupantsOf(p, c)| <= |SessionsOf(p, c)| + ReservedBy(p, c);
      SubsetIsSmaller(OccupantsOf(p', c), OccupantsOf(p, c) + (if tag == Some(c) then {l} else {}));
      UnionIsSmaller(OccupantsOf(p, c), if tag == Some(c) then {l} else {});
    }
  }

  lemma ReturnBooksOne(p: Pool, l: Launch, c: Consumer)
    requires l in p.acquires && l in p.meta && ReservedBy(p, c) == |AcquiresOf(p, c)|
    ensures ReservedBy(Return(p, l), c) == |AcquiresOf(Return(p, l), c)|
  {
    var p' := Return(p, l);
    if p.meta[l] == Some(c) {
      assert l in AcquiresOf(p, c);
      assert AcquiresOf(p', c) == AcquiresOf(p, c) - {l};
    } else {
      assert AcquiresOf(p', c) == AcquiresOf(p, c);
    }
  }

  lemma ReturnBooked(p: Pool, l: Launch)
    requires Booked(p) && l in p.acquires && l in p.meta
    ensures Booked(Return(p, l))
  {
    hide AcquiresOf, ReservedBy;
    var p' := Return(p, l);
    assert p'.acquires.Keys == p.acquires.Keys - {l};
    forall c: Consumer ensures ReservedBy(p', c) == |AcquiresOf(p', c)| {
      ReturnBooksOne(p, l, c);
    }
  }

  lemma ReturnWithin(p: Pool, l: Launch)
    requires Within(p) && l in p.acquires && l in p.meta
    ensures Within(Return(p, l))
  {
    var p' := Return(p, l);
    SubsetIsSmaller(Occupants(p'), Occupants(p));
    forall c: Consumer ensures |OccupantsOf(p', c)| <= p'.perConsumer {
      assert |OccupantsOf(p, c)| <= p.perConsumer;
      SubsetIsSmaller(OccupantsOf(p', c), OccupantsOf(p, c));
    }
  }

  lemma FreshSlotOk(p: Pool, l: Launch)
    requires Tidy(p) && Booked(p) && l !in p.meta
    ensures SlotOk(At(p, l).(phase := Some(Minting)))
  {
    hide Distinct;
    assert SlotOk(At(p, l));
  }

  lemma AcquireKeeps(p: Pool, l: Launch, tag: Option<Consumer>)
    requires PoolInv(p) && l !in p.meta
    ensures PoolInv(Acquire(p, l, tag)) && (p.shuttingDown ==> Acquire(p, l, tag) == p)
  {
    hide Tidy, Booked, Within, At, SlotOk, Elsewhere;
    if Admits(p, tag) {
      FreshSlotOk(p, l);
      AcquireSlot(p, l, tag);
      TidySlot(p, l);
      TidyBy(p, Acquire(p, l, tag), l);
      AcquireBooked(p, l, tag);
      AcquireWithin(p, l, tag);
    }
  }

  lemma ReturnKeeps(p: Pool, l: Launch)
    requires PoolInv(p) && l in p.acquires && l in p.meta && p.acquires[l].Returning?
    ensures PoolInv(Return(p, l))
  {
    hide Tidy, Booked, Within, Return;
    LaunchStepKeeps(p, l, false);
    ReturnBooked(p, l);
    ReturnWithin(p, l);
  }

  // -- every step, every run ----------------------------------------------------------------------

  lemma TickKeeps(p: Pool)
    requires Tidy(p)
    ensures Tidy(EnforceWatchCap(p, 0)) && Tidy(p.(shuttingDown := true))
  {
    hide SlotOk, Evict;
    EvictSlots(p, 0);
    var q := p.(shuttingDown := true);
    forall l ensures SlotOk(At(q, l)) { assert At(q, l) == At(p, l) && SlotOk(At(p, l)); }
  }

  lemma LaunchEventKeeps(p: Pool, e: Event)
    requires Tidy(p) && Enabled(p, e) && (e.Starts? || e.Throws? || e.Rejects? || e.TimesOut? || e.Launches?)
    ensures Tidy(Step(p, e)) && AdmitsNobody(p, Step(p, e))
  {
    hide Slots, LaunchStarts, LaunchFailed, LaunchTimedOut, Launched, AdmitsNobody;
    match e {
      case Starts(l, dir) => LaunchStepKeeps(p, l, dir); StartAdmitsNobody(p, l, dir);
      case Throws(l, dir) => LaunchStepKeeps(p, l, dir); FailedAdmitsNobody(p, l, dir);
      case Rejects(l) => LaunchStepKeeps(p, l, p.acquires[l].dir); FailedAdmitsNobody(p, l, p.acquires[l].dir);
      case TimesOut(l) => LaunchStepKeeps(p, l, p.acquires[l].dir); FailedAdmitsNobody(p, l, p.acquires[l].dir);
      case Launches(l) => LaunchStepKeeps(p, l, p.acquires[l].dir); LaunchedAdmitsNobody(p, l, p.acquires[l].dir);
    }
  }

  lemma RecordEventKeeps(p: Pool, e: Event)
    requires Tidy(p) && Enabled(p, e)
    requires e.LateResolves? || e.LateRejects? || e.Sweeps? || e.SweepSettles? || e.SweepFails? || e.OrphanDies? || e.OrphanWedges?
    ensures Tidy(Step(p, e)) && AdmitsNobody(p, Step(p, e))
  {
    hide Slots, LateResolve, LateReject, SweepStart, SweepDone, SweepError, OrphanTeardownOk, OrphanTeardownFails, AdmitsNobody;
    match e {
      case LateResolves(l) => LateKeeps(p, l); LateAdmitsNobody(p, l);
      case LateRejects(l) => LateKeeps(p, l); LateAdmitsNobody(p, l);
      case Sweeps(l) => SweepStartKeeps(p, l); SweepStartAdmitsNobody(p, l);
      case SweepSettles(l, o) => SweepDoneKeeps(p, l, o); SweepDoneAdmitsNobody(p, l, o);
      case SweepFails(l) => SweepErrorKeeps(p, l); SweepErrorAdmitsNobody(p, l);
      case OrphanDies(l) => OrphanTeardownKeeps(p, l); TeardownAdmitsNobody(p, l);
      case OrphanWedges(l) => OrphanTeardownKeeps(p, l); TeardownAdmitsNobody(p, l);
    }
  }

  lemma SessionEventKeeps(p: Pool, e: Event)
    requires Tidy(p) && Enabled(p, e) && (e.Releases? || e.Dies? || e.Wedges? || e.Reconfirms? || e.Ticks? || e.ShutsDown?)
    ensures Tidy(Step(p, e)) && AdmitsNobody(p, Step(p, e))
  {
    hide Slots, BeginTeardown, TeardownOk, TeardownFails, ReconfirmOk, EnforceWatchCap, AdmitsNobody;
    match e {
      case Releases(l) => SessionStepsKeep(p, l); ReleaseAdmitsNobody(p, l);
      case Dies(l) => SessionStepsKeep(p, l); DeathAdmitsNobody(p, l);
      case Wedges(l) => SessionStepsKeep(p, l); WedgeAdmitsNobody(p, l);
      case Reconfirms(l) => ReconfirmKeeps(p, l); ReconfirmAdmitsNobody(p, l);
      case Ticks => TickKeeps(p); TickAdmitsNobody(p);
      case ShutsDown => TickKeeps(p); TickAdmitsNobody(p);
    }
  }

  /** Nothing is registered once shutdown began, and shutdown is not taken back. */
  ghost predicate Shut(p: Pool, p': Pool) {
    && p'.max == p.max && p'.perConsumer == p.perConsumer
    && (p.shuttingDown ==> p'.shuttingDown && p'.sessions <= p.sessions)
  }

  /** Every event keeps every launch accounted for and the caps respected. */
  lemma StepKeepsPool(p: Pool, e: Event)
    requires PoolInv(p) && Enabled(p, e)
    ensures PoolInv(Step(p, e)) && Shut(p, Step(p, e))
  {
    if e.Acquires? {
      hide PoolInv;
      AcquireKeeps(p, e.l, e.tag);
    } else if e.Returns? {
      hide PoolInv;
      ReturnKeeps(p, e.l);
    } else {
      hide Enabled, Step, Tidy, Booked, Within, AdmitsNobody;
      if e.Starts? || e.Throws? || e.Rejects? || e.TimesOut? || e.Launches? {
        LaunchEventKeeps(p, e);
      } else if e.Releases? || e.Dies? || e.Wedges? || e.Reconfirms? || e.Ticks? || e.ShutsDown? {
        SessionEventKeeps(p, e);
      } else {
        RecordEventKeeps(p, e);
      }
      NobodyKeeps(p, Step(p, e));
      NobodyShuts(p, Step(p, e));
    }
  }

  lemma NobodyShuts(p: Pool, p': Pool)
    requires AdmitsNobody(p, p')
    ensures Shut(p, p')
  {
  }

  function Run(p: Pool, es: seq<Event>): Pool
    decreases |es|
  {
    if es == [] then p else Run(if Enabled(p, es[0]) then Step(p, es[0]) else p, es[1..])
  }

  lemma {:induction false} RunKeepsPool(p: Pool, es: seq<Event>)
    requires PoolInv(p)
    ensures PoolInv(Run(p, es)) && Shut(p, Run(p, es))
    decreases |es|
  {
    hide PoolInv, Enabled, Step;
    if es != [] {
      var p1 := if Enabled(p, es[0]) then Step(p, es[0]) else p;
      if Enabled(p, es[0]) { StepKeepsPool(p, es[0]); }
      RunKeepsPool(p1, es[1..]);
    }
  }

  lemma EmptyPoolInv(max: nat, perConsumer: nat)
    ensures PoolInv(EmptyPool(max, perConsumer))
  {
    var p := EmptyPool(max, perConsumer);
    assert Occupants(p) == {};
    forall c: Consumer ensures ReservedBy(p, c) == |AcquiresOf(p, c)| && |OccupantsOf(p, c)| <= p.perConsumer {
      assert AcquiresOf(p, c) == {} && OccupantsOf(p, c) == {};
    }
  }

  // -- what the invariant says --------------------------------------------------------------------

  /** Every core whose launch resolved and whose death nobody confirmed yet. */
  function LiveCores(p: Pool): set<Launch> {
    set l | l in p.fate && p.fate[l] == Resolved && l !in p.dead
  }

  /** Live browsers are never under-counted, over any interleaving. */
  lemma LiveBrowsersAreCounted(max: nat, perConsumer: nat, es: seq<Event>)
    ensures var p := Run(EmptyPool(max, perConsumer), es);
      LiveCores(p) <= p.sessions + p.orphans && |LiveCores(p)| <= ActiveCount(p)
  {
    hide Booked, Within, Distinct, Run, DirOk, PhaseOk;
    EmptyPoolInv(max, perConsumer);
    RunKeepsPool(EmptyPool(max, perConsumer), es);
    var p := Run(EmptyPool(max, perConsumer), es);
    forall l | l in LiveCores(p) ensures l in p.sessions + p.orphans {
      assert SlotOk(At(p, l));
    }
    SubsetIsSmaller(LiveCores(p), p.sessions + p.orphans);
    UnionIsSmaller(p.sessions, p.orphans);
  }

  /** Once shutdown began, however the run goes on, no session appears and no acquire is admitted. */
  lemma NothingRegistersAfterShutdown(p: Pool, es: seq<Event>, tag: Option<Consumer>)
    requires PoolInv(p) && p.shuttingDown
    ensures Run(p, es).sessions <= p.sessions && !Admits(Run(p, es), tag)
  {
    hide PoolInv, Run;
    RunKeepsPool(p, es);
  }

  /**
   The orphan-record protocol in every reachable state: counted and watched records are disjoint, a
   deferred settlement always has a running sweep to resume it, a counted record with a core is being
   torn down, awaiting a reconfirm or waiting for its sweep, and owed process groups keep it counted.
   */
  lemma RecordProtocol(max: nat, perConsumer: nat, es: seq<Event>, l: Launch)
    ensures var p := Run(EmptyPool(max, perConsumer), es);
      && !(l in p.orphans && l in p.watch)
      && (l in p.orphans || l in p.watch ==> l in p.recs)
      && (l in p.recs ==>
            && var r := p.recs[l];
            && (r.settleAfterSweep ==> r.sweeping && r.session && l in p.dead)
            && (r.sweeping ==> r.dir && (l in p.orphans || l in p.watch))
            && (r.session ==> l !in p.watch)
            && (r.stamps != [] ==> l in p.orphans)
            && (l in p.orphans && r.session ==> l in p.tearing || l in p.unconfirmed || r.settleAfterSweep))
  {
    hide Booked, Within, Distinct, Run, DirOk, PhaseOk;
    EmptyPoolInv(max, perConsumer);
    RunKeepsPool(EmptyPool(max, perConsumer), es);
    assert SlotOk(At(Run(EmptyPool(max, perConsumer), es), l));
  }

  /**
   A profile directory is removed at most once in any run, and in a state where it was removed its launch
   has settled, its core if any is dead, no sweep runs over it and no process group is owed.
   */
  lemma DirectoryRemovedOnce(max: nat, perConsumer: nat, es: seq<Event>, l: Launch)
    ensures var p := Run(EmptyPool(max, perConsumer), es);
      && Removals(p, l) <= 1
      && (Removals(p, l) == 1 ==>
            && l in p.fate && p.fate[l] != Pending
            && (p.fate[l] == Resolved ==> l in p.dead && l !in p.sessions)
            && l !in p.orphans && l !in p.watch && l !in p.owned
            && (l in p.recs ==> !p.recs[l].dir && !p.recs[l].sweeping && p.recs[l].stamps == []))
  {
    hide Booked, Within, Distinct, Run;
    EmptyPoolInv(max, perConsumer);
    RunKeepsPool(EmptyPool(max, perConsumer), es);
    assert SlotOk(At(Run(EmptyPool(max, perConsumer), es), l));
  }

  /**
   Every profile directory ends. One made for a launch, unless a host that supports no sweep let it go,
   has been removed exactly when the launch has settled, its core if any is dead, and its record is off
   both lists; a launch no directory was made for has none removed.
   */
  lemma EveryDirectoryEnds(max: nat, perConsumer: nat, es: seq<Event>, l: Launch)
    ensures var p := Run(EmptyPool(max, perConsumer), es);
      && (l !in p.dirs ==> Removals(p, l) == 0)
      && (l in p.dirs && !p.dirs[l].dropped ==>
            (Removals(p, l) == 1 <==>
              && l in p.fate && p.fate[l] != Pending && (p.fate[l] == Resolved ==> l in p.dead)
              && l !in p.orphans && l !in p.watch))
  {
    hide Booked, Within, Distinct, Run;
    EmptyPoolInv(max, perConsumer);
    RunKeepsPool(EmptyPool(max, perConsumer), es);
    assert SlotOk(At(Run(EmptyPool(max, perConsumer), es), l));
  }

  /** Sessions and unregistered launches never exceed the cap, nor one consumer's share of it. */
  lemma CapacityHolds(max: nat, perConsumer: nat, es: seq<Event>, c: Consumer)
    ensures var p := Run(EmptyPool(max, perConsumer), es);
      |Occupants(p)| <= max && |OccupantsOf(p, c)| <= perConsumer
  {
    hide Tidy, Booked, Run, OccupantsOf, Occupants;
    EmptyPoolInv(max, perConsumer);
    RunKeepsPool(EmptyPool(max, perConsumer), es);
  }

  // -- the boot-time floor ------------------------------------------------------------------------

  lemma {:induction false} SharesAddUp(p: Pool, who: set<Launch>, cs: set<Consumer>)
    requires forall c | c in cs :: |OccupantsOf(p, c)| <= p.perConsumer
    requires forall l | l in who :: exists c :: c in cs && l in OccupantsOf(p, c)
    ensures |who| <= |cs| * p.perConsumer
    decreases |cs|
  {
    hide OccupantsOf;
    if cs == {} {
      assert who == {};
    } else {
      var c :| c in cs;
      var rest := who - OccupantsOf(p, c);
      forall l | l in rest ensures exists k :: k in cs - {c} && l in OccupantsOf(p, k) {
        var k :| k in cs && l in OccupantsOf(p, k);
        assert k in cs - {c};
      }
      SharesAddUp(p, rest, cs - {c});
      SubsetIsSmaller(who, rest + OccupantsOf(p, c));
      UnionIsSmaller(rest, OccupantsOf(p, c));
      var n := |cs - {c}|;
      assert |cs| == n + 1;
      OneMoreShare(n, p.perConsumer);
    }
  }

  lemma OneMoreShare(n: nat, share: nat)
    ensures n * share + share == (n + 1) * share
  {
  }

  /**
   The point of the floor, a sum over all consumers: if it accepts as many consumers as there are, an
   untagged acquire is admitted whenever nothing untagged, no orphan and no returning acquire is about.
   */
  lemma FloorLeavesRoom(max: nat, perConsumer: nat, es: seq<Event>, cs: set<Consumer>, n: nat)
    requires PoolSizingError(n, perConsumer, max).None? && |cs| <= n
    ensures var p := Run(EmptyPool(max, perConsumer), es);
      (&& !p.shuttingDown && p.orphans == {}
       && (forall l | l in Occupants(p) :: l in p.meta && p.meta[l].Some? && p.meta[l].value in cs)
       && (forall l | l in p.acquires :: !p.acquires[l].Returning?)) ==> Admits(p, None)
  {
    hide Tidy, Run;
    EmptyPoolInv(max, perConsumer);
    RunKeepsPool(EmptyPool(max, perConsumer), es);
    var p := Run(EmptyPool(max, perConsumer), es);
    if && !p.shuttingDown && p.orphans == {}
       && (forall l | l in Occupants(p) :: l in p.meta && p.meta[l].Some? && p.meta[l].value in cs)
       && (forall l | l in p.acquires :: !p.acquires[l].Returning?)
    {
      forall l | l in Occupants(p) ensures exists c :: c in cs && l in OccupantsOf(p, c) {
        assert l in OccupantsOf(p, p.meta[l].value);
      }
      SharesAddUp(p, Occupants(p), cs);
      EveryoneCounted(p);
      ShareBound(|cs|, n, perConsumer);
    }
  }

  lemma ShareBound(k: nat, n: nat, share: nat)
    requires k <= n
    ensures k * share <= n * share
  {
  }

  /** With nobody between registration and return, sessions and reservations count every occupant once. */
  lemma EveryoneCounted(p: Pool)
    requires PoolInv(p) && forall l | l in p.acquires :: !p.acquires[l].Returning?
    ensures |p.sessions| + p.reserved == |Occupants(p)|
  {
    hide Within, Distinct, RecOk, DirOk;
    forall l | l in p.acquires ensures l !in p.sessions {
      assert SlotOk(At(p, l));
    }
    assert Occupants(p) == p.sessions + p.acquires.Keys;
  }

  /** What admission counts, in every reachable state: sessions, counted orphans and acquires, in all and of one consumer. */
  lemma AdmitsIff(max: nat, perConsumer: nat, es: seq<Event>, tag: Option<Consumer>)
    ensures var p := Run(EmptyPool(max, perConsumer), es);
      Admits(p, tag) <==>
        && !p.shuttingDown
        && |p.sessions| + |p.orphans| + |p.acquires| < max
        && (tag.Some? ==> |SessionsOf(p, tag.value)| + |OrphansOf(p, tag.value)| + |AcquiresOf(p, tag.value)| < perConsumer)
  {
    hide Tidy, Within, Run, SessionsOf, OrphansOf, AcquiresOf, ReservedBy;
    EmptyPoolInv(max, perConsumer);
    RunKeepsPool(EmptyPool(max, perConsumer), es);
    var p := Run(EmptyPool(max, perConsumer), es);
    assert |p.acquires| == |p.acquires.Keys|;
    if tag.Some? { assert ReservedBy(p, tag.value) == |AcquiresOf(p, tag.value)|; }
  }

  /**
   The floor is what makes a share worth having: under it, with no orphan and no returning acquire about,
   a consumer is admitted exactly while it occupies less than its own share, whatever the others hold.
   */
  lemma ShareIsGuaranteed(max: nat, perConsumer: nat, es: seq<Event>, cs: set<Consumer>, n: nat, c: Consumer)
    requires PoolSizingError(n, perConsumer, max).None? && |cs| <= n
    ensures var p := Run(EmptyPool(max, perConsumer), es);
      (&& !p.shuttingDown && p.orphans == {}
       && (forall l | l in Occupants(p) :: l in p.meta && p.meta[l].Some? && p.meta[l].value in cs)
       && (forall l | l in p.acquires :: !p.acquires[l].Returning?)) ==>
        (Admits(p, Some(c)) <==> |OccupantsOf(p, c)| < perConsumer)
  {
    hide Tidy, Run, Occupants, OccupantsOf, SessionsOf, AcquiresOf, Booked, Within;
    EmptyPoolInv(max, perConsumer);
    RunKeepsPool(EmptyPool(max, perConsumer), es);
    var p := Run(EmptyPool(max, perConsumer), es);
    if && !p.shuttingDown && p.orphans == {}
       && (forall l | l in Occupants(p) :: l in p.meta && p.meta[l].Some? && p.meta[l].value in cs)
       && (forall l | l in p.acquires :: !p.acquires[l].Returning?)
    {
      FloorLeavesRoom(max, perConsumer, es, cs, n);
      EveryoneOfOneCounted(p, c);
      ReservedIs(p, c);
      assert OrphansOf(p, c) == {};
    }
  }

  lemma ReservedIs(p: Pool, c: Consumer)
    requires Booked(p)
    ensures ReservedBy(p, c) == |AcquiresOf(p, c)|
  {
    hide AcquiresOf, ReservedBy;
  }

  lemma EveryoneOfOneCounted(p: Pool, c: Consumer)
    requires PoolInv(p) && forall l | l in p.acquires :: !p.acquires[l].Returning?
    ensures |SessionsOf(p, c)| + |AcquiresOf(p, c)| == |OccupantsOf(p, c)|
  {
    hide PoolInv;
    AcquiresHaveNoSession(p);
    assert OccupantsOf(p, c) == SessionsOf(p, c) + AcquiresOf(p, c);
    assert SessionsOf(p, c) !! AcquiresOf(p, c);
  }

  lemma AcquiresHaveNoSession(p: Pool)
    requires PoolInv(p) && forall l | l in p.acquires :: !p.acquires[l].Returning?
    ensures forall l | l in p.acquires :: l !in p.sessions
  {
    hide Booked, Within, Distinct, RecOk, DirOk;
    forall l | l in p.acquires ensures l !in p.sessions {
      assert SlotOk(At(p, l));
    }
  }

  // -- what is not promised -----------------------------------------------------------------------

  /** A session is registered before its acquire lets go: for a moment the two counters exceed the cap. */
  lemma CountersMayExceedTheCap()
    ensures exists es :: var p := Run(EmptyPool(1, 1), es); |p.sessions| + p.reserved > p.max
  {
    var es := [Acquires(0, None), Starts(0, false), Launches(0)];
    var p0 := EmptyPool(1, 1);
    var p1 := Acquire(p0, 0, None);
    assert Admits(p0, None);
    var p2 := LaunchStarts(p1, 0, false);
    var p3 := Launched(p2, 0, false);
    assert es[1..] == [Starts(0, false), Launches(0)] && es[1..][1..] == [Launches(0)] && es[1..][1..][1..] == [];
    assert Run(p3, []) == p3;
    assert Run(p2, [Launches(0)]) == p3;
    assert Run(p1, [Starts(0, false), Launches(0)]) == p3;
    assert Run(p0, es) == p3;
    assert p3.sessions == {0} && p3.reserved == 1;
  }

  lemma RunOne(p: Pool, e: Event, es: seq<Event>)
    requires Enabled(p, e)
    ensures Run(p, [e] + es) == Run(Step(p, e), es)
  {
    assert ([e] + es)[1..] == es;
  }

  lemma {:induction false} RunAppend(p: Pool, a: seq<Event>, b: seq<Event>)
    ensures Run(p, a + b) == Run(Run(p, a), b)
    decreases |a|
  {
    hide Enabled, Step;
    if a == [] {
      assert a + b == b;
    } else {
      assert (a + b)[1..] == a[1..] + b;
      RunAppend(if Enabled(p, a[0]) then Step(p, a[0]) else p, a[1..], b);
    }
  }

  /** A launch wedged past its deadline, its acquire gone, its directory scanned empty. */
  lemma Wedged() returns (es: seq<Event>)
    ensures var p := Run(EmptyPool(1, 1), es);
      && p.sessions == {} && p.orphans == {} && p.watch == [0] && p.recs == map[0 := NewRec(true, None, false)]
      && p.reserved == 0 && p.max == 1 && !p.shuttingDown && p.acquires == map[] && p.meta.Keys == {0}
      && p.fate == map[0 := Pending] && p.reservedBy == map[]
  {
    hide Acquire, LaunchStarts, LaunchTimedOut, Return, SweepDone, Enabled;
    var p0 := EmptyPool(1, 1);
    var p1 := Acquire(p0, 0, None);
    var p2 := LaunchStarts(p1, 0, true);
    WedgedStates(p0, p1, p2);
    var p3 := LaunchTimedOut(p2, 0, true);
    var p4 := Return(p3, 0);
    ParkedAlone(p4);
    RunOne(p4, SweepSettles(0, Confirmed), []);
    RunOne(p3, Returns(0), [SweepSettles(0, Confirmed)]);
    RunOne(p2, TimesOut(0), [Returns(0)] + [SweepSettles(0, Confirmed)]);
    var tail := [TimesOut(0)] + ([Returns(0)] + [SweepSettles(0, Confirmed)]);
    RunOne(p1, Starts(0, true), tail);
    RunOne(p0, Acquires(0, None), [Starts(0, true)] + tail);
    es := [Acquires(0, None)] + ([Starts(0, true)] + tail);
    assert [SweepSettles(0, Confirmed)] + [] == [SweepSettles(0, Confirmed)];
    RunNothing(SweepDone(p4, 0, Confirmed));
  }

  lemma WedgedStates(p0: Pool, p1: Pool, p2: Pool)
    requires p0 == EmptyPool(1, 1) && p1 == Acquire(p0, 0, None) && p2 == LaunchStarts(p1, 0, true)
    ensures Enabled(p0, Acquires(0, None)) && Enabled(p1, Starts(0, true)) && Enabled(p2, TimesOut(0))
    ensures p2.acquires[0] == Racing(true) && 0 in p2.meta
    ensures var p3 := LaunchTimedOut(p2, 0, true);
      && Enabled(p3, Returns(0))
      && var p4 := Return(p3, 0);
      && Enabled(p4, SweepSettles(0, Confirmed))
      && p4 == p0.(meta := map[0 := None], recs := map[0 := NewRec(true, None, false).(sweeping := true)], orphans := {0}, fate := map[0 := Pending],
                      dirs := map[0 := DirFate(0, false)])
  {
    assert Admits(p0, None);
    var p3 := LaunchTimedOut(p2, 0, true);
    assert p3.acquires == map[0 := Returning(false)];
    assert p3.recs == map[0 := NewRec(true, None, false).(sweeping := true)];
  }

  /** A record that comes back from the watch list is counted above the cap: that is the truth, and acquires wait. */
  lemma WatchedRecordMayExceedTheCap()
    ensures exists es :: var p := Run(EmptyPool(1, 1), es); ActiveCount(p) > p.max
  {
    var wedge := Wedged();
    hide Run;
    var p5 := Run(EmptyPool(1, 1), wedge);
    var p6 := Acquire(p5, 1, None);
    var p7 := LaunchStarts(p6, 1, false);
    var p8 := Launched(p7, 1, false);
    var p9 := LateResolve(p8, 0);
    assert p9.sessions == {1} && p9.orphans == {0};
    hide Acquire, LaunchStarts, Launched, LateResolve;
    var es := [Acquires(1, None)] + ([Starts(1, false)] + ([Launches(1)] + [LateResolves(0)]));
    RunOne(p8, LateResolves(0), []);
    RunNothing(p9);
    RunOne(p7, Launches(1), [LateResolves(0)]);
    RunOne(p6, Starts(1, false), [Launches(1)] + [LateResolves(0)]);
    RunOne(p5, Acquires(1, None), [Starts(1, false)] + ([Launches(1)] + [LateResolves(0)]));
    assert [LateResolves(0)] + [] == [LateResolves(0)];
    RunAppend(EmptyPool(1, 1), wedge, es);
    assert Run(EmptyPool(1, 1), wedge + es) == p9;
  }

  lemma RunNothing(p: Pool)
    ensures Run(p, []) == p
  {
  }

  lemma ParkedAlone(p: Pool)
    requires 0 in p.recs && p.recs[0] == NewRec(true, None, false).(sweeping := true) && p.orphans == {0} && p.watch == []
    ensures var p' := SweepDone(p, 0, Confirmed);
      && p'.orphans == {} && p'.watch == [0] && p'.recs == p.recs[0 := NewRec(true, None, false)]
      && p' == p.(orphans := {}, watch := [0], recs := p'.recs)
  {
    assert Evict(p, [], 1) == [];
  }
}
