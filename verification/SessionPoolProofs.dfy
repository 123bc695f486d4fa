/** What every step of the session pool keeps, one launch at a time. */
module PoolInvariants {
  import opened Common
  import opened PoolModel

  /** Everything the pool knows about one launch, and what really happened to it. */
  datatype Slot = Slot(phase: Option<Phase>, session: bool, closing: bool, unconfirmed: bool, owned: bool,
                       orphan: bool, watched: bool, rec: Option<Rec>,
                       fate: Option<Fate>, dead: bool, tearing: bool, made: Option<DirFate>)

  function At(p: Pool, l: Launch): Slot {
    Slot(if l in p.acquires then Some(p.acquires[l]) else None,
         l in p.sessions, l in p.closing, l in p.unconfirmed, l in p.owned,
         l in p.orphans, l in p.watch, if l in p.recs then Some(p.recs[l]) else None,
         if l in p.fate then Some(p.fate[l]) else None, l in p.dead, l in p.tearing, DirOf(p, l))
  }

  predicate Member(s: Slot) { s.orphan || s.watched }

  predicate WasDropped(s: Slot) { s.made.Some? && s.made.value.dropped }

  /** The orphan-record protocol. */
  predicate RecOk(s: Slot) {
    && (Member(s) ==> s.rec.Some?)
    && !(s.orphan && s.watched)
    && (s.rec.Some? ==>
          && var r := s.rec.value;
          && (r.sweeping ==> Member(s) && r.dir)
          && (r.settleAfterSweep ==> r.sweeping && r.session && s.dead)
          && (r.session ==> !s.watched && s.fate == Some(Resolved))
          && (!r.session && s.fate == Some(Resolved) ==> s.dead)
          && (r.settled ==> s.fate == Some(Resolved) || s.fate == Some(Rejected))
          && (r.stamps != [] ==> s.orphan && r.dir)
          && !s.session && !s.owned && !s.closing
          && s.fate.Some?
          && (Member(s) ==> r.dir || r.session)
          // a record that still has its directory is let go only while its launch is pending, or on a host no sweep supports
          && (r.dir && !Member(s) ==> WasDropped(s) || s.fate == Some(Pending))
          && (s.watched && !r.sweeping ==> s.fate == Some(Pending))
          && (!r.settled ==> s.fate == Some(Pending) || (r.session && !r.sweeping && r.stamps == [])))
  }

  /** Whoever holds a live core holds it until its death is confirmed, and somebody is seeing to it. */
  predicate LiveOk(s: Slot) {
    && (s.session ==> s.fate == Some(Resolved) && !s.dead && s.rec.None?)
    && (s.closing ==> s.session && !s.unconfirmed)
    && (s.owned ==> s.session)
    && (s.unconfirmed ==> !s.dead && (s.session || (s.orphan && s.rec.Some? && s.rec.value.session)))
    && (s.tearing ==> s.orphan && s.rec.Some? && s.rec.value.session && !s.dead && !s.unconfirmed)
    && (s.dead ==> s.fate == Some(Resolved))
    && (s.fate == Some(Resolved) && !s.dead ==> s.session || (s.orphan && s.rec.Some? && s.rec.value.session))
    && (s.orphan && s.rec.Some? && s.rec.value.session ==> s.tearing || s.unconfirmed || s.rec.value.settleAfterSweep)
  }

  function RemovalsOf(s: Slot): nat { if s.made.Some? then s.made.value.removals else 0 }

  function Holders(s: Slot): nat {
    (if s.phase == Some(Racing(true)) then 1 else 0) + (if s.owned then 1 else 0)
    + (if s.rec.Some? && s.rec.value.dir then 1 else 0) + RemovalsOf(s)
  }

  /** One holder for a profile directory, and one removal, after the launch settled and owes nothing. */
  predicate DirOk(s: Slot) {
    && Holders(s) == (if s.made.Some? then 1 else 0)
    && (RemovalsOf(s) > 0 ==>
          && (s.fate == Some(Resolved) || s.fate == Some(Rejected))
          && (s.fate == Some(Resolved) ==> s.dead)
          && !Member(s)
          && (s.rec.Some? ==> !s.rec.value.sweeping && s.rec.value.stamps == []))
  }

  predicate PhaseOk(s: Slot) {
    && (s.phase == Some(Minting) ==> s.fate.None?)
    && (s.fate.None? ==> !s.session && s.rec.None? && !s.dead && s.made.None?)
    && (s.phase.Some? && s.phase.value.Racing? ==> s.fate == Some(Pending) && s.rec.None?)
    && (s.fate == Some(Pending) && !(s.phase.Some? && s.phase.value.Racing?) ==> s.rec.Some? && !s.rec.value.settled)
    && (s.phase == Some(Reaping) ==> !s.session)
    && (s.phase == Some(Returning(false)) ==> !s.session)
  }

  predicate SlotOk(s: Slot) { RecOk(s) && LiveOk(s) && DirOk(s) && PhaseOk(s) }

  ghost predicate Distinct(watch: seq<Launch>) {
    forall i, j | 0 <= i < j < |watch| :: watch[i] != watch[j]
  }

  /** Two pools that differ, launch by launch, at one launch only. */
  ghost predicate Elsewhere(p: Pool, p': Pool, l: Launch) {
    forall k | k != l :: At(p', k) == At(p, k)
  }

  ghost predicate Slots(p: Pool) { forall l :: SlotOk(At(p, l)) }

  lemma {:induction false} WithoutDrops(watch: seq<Launch>, l: Launch)
    requires Distinct(watch)
    ensures Distinct(Without(watch, l))
    ensures forall k :: k in Without(watch, l) <==> k in watch && k != l
    ensures |Without(watch, l)| == |watch| - (if l in watch then 1 else 0)
    ensures l !in watch ==> Without(watch, l) == watch
  {
    if watch != [] {
      assert Distinct(watch[1..]);
      WithoutDrops(watch[1..], l);
      assert watch == [watch[0]] + watch[1..];
      assert forall k :: k in watch <==> k == watch[0] || k in watch[1..];
      var rest := Without(watch[1..], l);
      assert watch[0] !in rest by {
        assert watch[0] !in watch[1..];
      }
      assert Without(watch, l) == (if watch[0] == l then [] else [watch[0]]) + rest;
    }
  }

  /** A step of one launch that keeps that launch's slot in order keeps them all. */
  lemma OneSlot(p: Pool, p': Pool, l: Launch)
    requires Slots(p) && Elsewhere(p, p', l) && SlotOk(At(p', l))
    ensures Slots(p')
  {
    forall k ensures SlotOk(At(p', k)) {
      assert SlotOk(At(p, k));
    }
  }

  // -- slots through the shared helpers -----------------------------------------------------------

  lemma ElsewhereTransitive(a: Pool, b: Pool, c: Pool, l: Launch)
    requires Elsewhere(a, b, l) && Elsewhere(b, c, l)
    ensures Elsewhere(a, c, l)
  {
    hide At;
  }

  /** The three edits every record step is made of. */
  lemma RecEdit(p: Pool, l: Launch, r: Rec)
    ensures var p' := p.(recs := p.recs[l := r]); Elsewhere(p, p', l) && At(p', l) == At(p, l).(rec := Some(r))
  {
  }

  lemma CountEdit(p: Pool, l: Launch)
    ensures var p' := p.(orphans := p.orphans + {l}); Elsewhere(p, p', l) && At(p', l) == At(p, l).(orphan := true)
  {
  }

  lemma UnwatchEdit(p: Pool, l: Launch)
    requires Distinct(p.watch)
    ensures var p' := p.(watch := Without(p.watch, l));
      Elsewhere(p, p', l) && At(p', l) == At(p, l).(watched := false) && Distinct(p'.watch)
  {
    hide Distinct, Without;
    WithoutDrops(p.watch, l);
  }

  lemma UncountEdit(p: Pool, l: Launch)
    ensures var p' := p.(orphans := p.orphans - {l}); Elsewhere(p, p', l) && At(p', l) == At(p, l).(orphan := false)
  {
  }

  lemma UnlistEdit(p: Pool, l: Launch)
    requires Distinct(p.watch)
    ensures var p' := p.(orphans := p.orphans - {l}, watch := Without(p.watch, l));
      Elsewhere(p, p', l) && At(p', l) == At(p, l).(orphan := false, watched := false) && Distinct(p'.watch)
  {
    hide Elsewhere, At, Without, Distinct;
    UncountEdit(p, l);
    var p1 := p.(orphans := p.orphans - {l});
    UnwatchEdit(p1, l);
    ElsewhereTransitive(p, p1, p1.(watch := Without(p1.watch, l)), l);
  }

  lemma RemovalEdit(p: Pool, l: Launch)
    ensures var p' := p.(dirs := p.dirs[l := Removed(DirOf(p, l))]);
      Elsewhere(p, p', l) && At(p', l) == At(p, l).(made := Some(Removed(At(p, l).made)))
  {
  }

  lemma AtRec(p: Pool, l: Launch)
    ensures At(p, l).rec == if l in p.recs then Some(p.recs[l]) else None
    ensures At(p, l).orphan == (l in p.orphans) && At(p, l).watched == (l in p.watch)
  {
  }

  lemma NothingElsewhere(p: Pool, l: Launch)
    ensures Elsewhere(p, p, l)
  {
  }

  lemma SweepStartSlot(p: Pool, l: Launch)
    requires l in p.recs && Distinct(p.watch)
    ensures var p' := SweepStart(p, l); var s := At(p, l); var r := p.recs[l];
      && Elsewhere(p, p', l) && Distinct(p'.watch) && p' == p.(orphans := p'.orphans, watch := p'.watch, recs := p'.recs)
      && At(p', l) ==
           (if r.sweeping || r.session || !Member(s) then s
            else if !r.dir then s.(orphan := false, watched := false)
            else s.(rec := Some(r.(sweeping := true))))
  {
    hide Elsewhere, At, Without, Distinct;
    AtRec(p, l);
    var r := p.recs[l];
    if r.sweeping || r.session || (l !in p.orphans && l !in p.watch) {
      NothingElsewhere(p, l);
    } else if !r.dir {
      UnlistEdit(p, l);
    } else {
      RecEdit(p, l, r.(sweeping := true));
    }
  }

  lemma FinalizeSlot(p: Pool, l: Launch)
    requires l in p.recs && Distinct(p.watch)
    ensures var p' := Finalize(p, l); var s := At(p, l); var r := p.recs[l];
      && Elsewhere(p, p', l) && Distinct(p'.watch)
      && p' == p.(orphans := p'.orphans, watch := p'.watch, recs := p'.recs, dirs := p'.dirs)
      && At(p', l) ==
           (if r.dir then s.(orphan := false, watched := false, rec := Some(r.(dir := false)), made := Some(Removed(s.made)))
            else s.(orphan := false, watched := false))
  {
    hide Elsewhere, At, Without, Distinct, DirOf;
    UnlistEdit(p, l);
    var p1 := p.(orphans := p.orphans - {l}, watch := Without(p.watch, l));
    SameDir(p, p1, l);
    RecEdit(p1, l, p.recs[l].(dir := false));
    var p2 := p1.(recs := p1.recs[l := p.recs[l].(dir := false)]);
    SameDir(p, p2, l);
    RemovalEdit(p2, l);
    ElsewhereTransitive(p, p1, p2, l);
    ElsewhereTransitive(p, p2, p2.(dirs := p2.dirs[l := Removed(DirOf(p2, l))]), l);
  }

  lemma SameDir(p: Pool, p': Pool, l: Launch)
    requires p'.dirs == p.dirs
    ensures DirOf(p', l) == DirOf(p, l)
  {
  }

  /** The settlement of a reaped core, slot by slot. */
  function Settled(s: Slot): Slot
    requires s.rec.Some?
  {
    var r := s.rec.value;
    if r.sweeping then s.(rec := Some(r.(settleAfterSweep := true)), orphan := true)
    else if r.dir && r.stamps != [] then s.(rec := Some(r.(session := false, sweeping := true)), orphan := true)
    else if r.dir then s.(orphan := false, watched := false, rec := Some(r.(dir := false)), made := Some(Removed(s.made)))
    else s.(orphan := false, watched := false)
  }

  lemma SettleSlot(p: Pool, l: Launch)
    requires l in p.recs && Distinct(p.watch)
    ensures var p' := SettleReaped(p, l);
      && Elsewhere(p, p', l) && Distinct(p'.watch)
      && p' == p.(orphans := p'.orphans, watch := p'.watch, recs := p'.recs, dirs := p'.dirs)
      && At(p', l) == Settled(At(p, l))
  {
    hide SweepStart, Finalize, Elsewhere, At, Without, Distinct, DirOf;
    AtRec(p, l);
    var r := p.recs[l];
    if r.sweeping {
      DeferSlot(p, l);
    } else if r.dir && r.stamps != [] {
      HandBackSlot(p, l);
    } else {
      FinalizeSlot(p, l);
    }
  }

  lemma DeferSlot(p: Pool, l: Launch)
    requires l in p.recs
    ensures var p' := p.(recs := p.recs[l := p.recs[l].(settleAfterSweep := true)], orphans := p.orphans + {l});
      Elsewhere(p, p', l) && At(p', l) == At(p, l).(rec := Some(p.recs[l].(settleAfterSweep := true)), orphan := true)
  {
    hide At, Elsewhere;
    RecEdit(p, l, p.recs[l].(settleAfterSweep := true));
    var p1 := p.(recs := p.recs[l := p.recs[l].(settleAfterSweep := true)]);
    CountEdit(p1, l);
    ElsewhereTransitive(p, p1, p1.(orphans := p1.orphans + {l}), l);
  }

  lemma HandBackSlot(p: Pool, l: Launch)
    requires l in p.recs && !p.recs[l].sweeping && p.recs[l].dir && Distinct(p.watch)
    ensures var p' := SweepStart(p.(recs := p.recs[l := p.recs[l].(session := false)], orphans := p.orphans + {l}), l);
      && Elsewhere(p, p', l) && Distinct(p'.watch)
      && p' == p.(orphans := p'.orphans, watch := p'.watch, recs := p'.recs, dirs := p'.dirs)
      && At(p', l) == At(p, l).(rec := Some(p.recs[l].(session := false, sweeping := true)), orphan := true)
  {
    hide At, Elsewhere, SweepStart, Distinct;
    RecEdit(p, l, p.recs[l].(session := false));
    var p1 := p.(recs := p.recs[l := p.recs[l].(session := false)]);
    CountEdit(p1, l);
    var p2 := p1.(orphans := p1.orphans + {l});
    ElsewhereTransitive(p, p1, p2, l);
    SweepStartSlot(p2, l);
    ElsewhereTransitive(p, p2, SweepStart(p2, l), l);
  }

  lemma {:induction false} EvictKeeps(p: Pool, watch: seq<Launch>, reserve: nat)
    requires Distinct(watch)
    ensures var w := Evict(p, watch, reserve);
      && Distinct(w)
      && (forall k | k in w :: k in watch)
      && (forall k | k in watch && k !in w :: Evictable(p, k))
      && (|w| + reserve <= MAX_WATCHED || forall k | k in w :: !Evictable(p, k))
      && (|watch| + reserve <= MAX_WATCHED ==> w == watch)
    decreases |watch|
  {
    if |watch| + reserve > MAX_WATCHED && FirstEvictable(p, watch).Some? {
      var i := FirstEvictable(p, watch).value;
      var rest := DropAt(watch, i);
      assert forall j | 0 <= j < |rest| :: rest[j] == watch[if j < i then j else j + 1];
      forall k | k in watch ensures k == watch[i] || k in rest {
        var j :| 0 <= j < |watch| && watch[j] == k;
        if j < i { assert rest[j] == k; } else if j > i { assert rest[j - 1] == k; }
      }
      EvictKeeps(p, rest, reserve);
    }
  }

  /** The entries whose sweep is in flight, in order. */
  function Busy(p: Pool, watch: seq<Launch>): seq<Launch> {
    if watch == [] then [] else (if Evictable(p, watch[0]) then [] else [watch[0]]) + Busy(p, watch[1..])
  }

  lemma {:induction false} BusyAll(p: Pool, watch: seq<Launch>)
    requires forall i | 0 <= i < |watch| :: !Evictable(p, watch[i])
    ensures Busy(p, watch) == watch
  {
    hide Evictable;
    if watch != [] {
      BusyAll(p, watch[1..]);
      assert watch == [watch[0]] + watch[1..];
    }
  }

  lemma {:induction false} BusyJoin(p: Pool, a: seq<Launch>, b: seq<Launch>)
    ensures Busy(p, a + b) == Busy(p, a) + Busy(p, b)
    decreases |a|
  {
    hide Evictable;
    if a == [] {
      assert a + b == b;
    } else {
      assert (a + b)[0] == a[0] && (a + b)[1..] == a[1..] + b;
      BusyJoin(p, a[1..], b);
    }
  }

  /** Dropping one idle entry leaves the busy ones. */
  lemma BusyWithoutIdle(p: Pool, watch: seq<Launch>, i: nat, k: nat)
    requires i < k <= |watch| && Evictable(p, watch[i])
    ensures Busy(p, watch[..k]) == Busy(p, DropAt(watch, i)[..k - 1])
  {
    hide Evictable;
    assert watch[..k] == watch[..i] + ([watch[i]] + watch[i + 1..k]);
    assert DropAt(watch, i)[..k - 1] == watch[..i] + watch[i + 1..k];
    BusyJoin(p, watch[..i], [watch[i]] + watch[i + 1..k]);
    BusyJoin(p, [watch[i]], watch[i + 1..k]);
    BusyJoin(p, watch[..i], watch[i + 1..k]);
    assert Busy(p, [watch[i]]) == [];
  }

  /**
   Eviction goes by age and no further than it must: up to some place every idle entry is gone and every
   busy one kept, from there on nothing is touched; it stops as soon as there is room, or nothing idle is left.
   */
  lemma {:induction false} EvictsOldestFirst(p: Pool, watch: seq<Launch>, reserve: nat) returns (k: nat)
    ensures var w := Evict(p, watch, reserve);
      && k <= |watch| && w == Busy(p, watch[..k]) + watch[k..]
      && (w != watch ==> |w| + 1 + reserve > MAX_WATCHED)
      && (|w| + reserve <= MAX_WATCHED || w == Busy(p, watch))
    decreases |watch|
  {
    hide Evictable;
    if |watch| + reserve <= MAX_WATCHED {
      k := 0;
      assert Busy(p, watch[..0]) + watch[0..] == watch;
    } else if FirstEvictable(p, watch).None? {
      k := 0;
      BusyAll(p, watch);
      assert Busy(p, watch[..0]) + watch[0..] == watch;
    } else {
      var i := FirstEvictable(p, watch).value;
      var j := EvictsOldestFirst(p, DropAt(watch, i), reserve);
      k := if j <= i then i + 1 else j + 1;
      CutsJoin(p, watch, i, j);
      DroppedOne(p, watch, i, reserve);
    }
  }

  lemma DroppedOne(p: Pool, watch: seq<Launch>, i: nat, reserve: nat)
    requires i < |watch| && Evictable(p, watch[i]) && |watch| + reserve > MAX_WATCHED
    requires FirstEvictable(p, watch) == Some(i)
    ensures Busy(p, watch) == Busy(p, DropAt(watch, i)) && |DropAt(watch, i)| == |watch| - 1
    ensures Evict(p, watch, reserve) == Evict(p, DropAt(watch, i), reserve)
  {
    hide Evictable;
    BusyWithoutIdle(p, watch, i, |watch|);
    assert watch[..|watch|] == watch && DropAt(watch, i)[..|watch| - 1] == DropAt(watch, i);
  }

  /** Where eviction went on in the shorter list, seen from the longer one. */
  lemma CutsJoin(p: Pool, watch: seq<Launch>, i: nat, j: nat)
    requires i < |watch| && j < |watch| && FirstEvictable(p, watch) == Some(i)
    ensures var rest := DropAt(watch, i); var k := if j <= i then i + 1 else j + 1;
      Busy(p, watch[..k]) + watch[k..] == Busy(p, rest[..j]) + rest[j..]
  {
    hide Evictable, Busy;
    var rest := DropAt(watch, i);
    var k := if j <= i then i + 1 else j + 1;
    BusyWithoutIdle(p, watch, i, k);
    assert rest[k - 1..] == watch[k..];
    if j <= i {
      BusyAll(p, rest[..j]);
      BusyAll(p, rest[..i]);
      assert rest[..j] + rest[j..] == rest && rest[..i] + rest[i..] == rest;
    }
  }

  /** Eviction forgets only idle watched records, which owe nothing. */
  lemma EvictSlots(p: Pool, reserve: nat)
    requires Slots(p) && Distinct(p.watch)
    ensures var p' := EnforceWatchCap(p, reserve);
      && Slots(p') && Distinct(p'.watch)
      && (forall k :: At(p', k) == At(p, k) || (At(p, k).watched && At(p', k) == At(p, k).(watched := false)))
      && (forall k | k in p'.watch :: k in p.watch)
      && (|p'.watch| + reserve <= MAX_WATCHED || forall k | k in p'.watch :: !Evictable(p, k))
  {
    EvictKeeps(p, p.watch, reserve);
    var p' := EnforceWatchCap(p, reserve);
    forall k ensures SlotOk(At(p', k)) {
      assert SlotOk(At(p, k));
    }
  }

  // -- every step, slot by slot -------------------------------------------------------------------

  ghost predicate Tidy(p: Pool) { Slots(p) && Distinct(p.watch) }

  lemma TidyBy(p: Pool, p': Pool, l: Launch)
    requires Tidy(p) && Elsewhere(p, p', l) && SlotOk(At(p', l)) && Distinct(p'.watch)
    ensures Tidy(p')
  {
    hide SlotOk, Distinct, At;
    OneSlot(p, p', l);
  }

  lemma AcquireSlot(p: Pool, l: Launch, tag: Option<Consumer>)
    requires l !in p.meta
    ensures var p' := Acquire(p, l, tag);
      Elsewhere(p, p', l) && p'.watch == p.watch && (At(p', l) == At(p, l) || At(p', l) == At(p, l).(phase := Some(Minting)))
  {
    hide Admits;
  }

  lemma PhaseEdit(p: Pool, l: Launch, f: Phase)
    ensures var p' := p.(acquires := p.acquires[l := f]); Elsewhere(p, p', l) && At(p', l) == At(p, l).(phase := Some(f))
  {
  }

  lemma FateEdit(p: Pool, l: Launch, f: Fate)
    ensures var p' := p.(fate := p.fate[l := f]); Elsewhere(p, p', l) && At(p', l) == At(p, l).(fate := Some(f))
  {
  }

  lemma TearingEdit(p: Pool, l: Launch)
    ensures var p' := p.(tearing := p.tearing + {l}); Elsewhere(p, p', l) && At(p', l) == At(p, l).(tearing := true)
  {
  }

  lemma CountersEdit(p: Pool, l: Launch, reserved: int, counts: map<Consumer, int>)
    ensures Elsewhere(p, p.(reserved := reserved, reservedBy := counts), l) && At(p.(reserved := reserved, reservedBy := counts), l) == At(p, l)
  {
  }

  lemma PhaseGone(p: Pool, l: Launch)
    ensures var p' := p.(acquires := p.acquires - {l}); Elsewhere(p, p', l) && At(p', l) == At(p, l).(phase := None)
  {
  }

  lemma ReturnSlot(p: Pool, l: Launch)
    requires l in p.acquires && l in p.meta
    ensures var p' := Return(p, l); Elsewhere(p, p', l) && p'.watch == p.watch && At(p', l) == At(p, l).(phase := None)
  {
    hide At, Elsewhere;
    PhaseGone(p, l);
    var p1 := p.(acquires := p.acquires - {l});
    var p' := Return(p, l);
    assert p' == p1.(reserved := p'.reserved, reservedBy := p'.reservedBy);
    CountersEdit(p1, l, p'.reserved, p'.reservedBy);
    ElsewhereTransitive(p, p1, p', l);
  }

  lemma LaunchStartsSlot(p: Pool, l: Launch, dir: bool)
    ensures var p' := LaunchStarts(p, l, dir);
      && Elsewhere(p, p', l) && p'.watch == p.watch
      && At(p', l) == At(p, l).(phase := Some(Racing(dir)), fate := Some(Pending), made := Making(At(p, l), dir))
  {
    hide At, Elsewhere;
    PhaseEdit(p, l, Racing(dir));
    var p1 := p.(acquires := p.acquires[l := Racing(dir)]);
    FateEdit(p1, l, Pending);
    var p2 := p1.(fate := p1.fate[l := Pending]);
    ElsewhereTransitive(p, p1, p2, l);
    MintEdit(p2, l, dir);
    ElsewhereTransitive(p, p2, LaunchStarts(p, l, dir), l);
  }

  /** A directory made for a launch that had none. */
  function Making(s: Slot, dir: bool): Option<DirFate> { if dir && s.made.None? then Some(DirFate(0, false)) else s.made }

  lemma MintEdit(p: Pool, l: Launch, dir: bool)
    ensures var p' := p.(dirs := Minted(p, l, dir)); Elsewhere(p, p', l) && At(p', l) == At(p, l).(made := Making(At(p, l), dir))
  {
  }

  lemma RegisterEdit(p: Pool, l: Launch, dir: bool)
    ensures var p' := p.(sessions := p.sessions + {l}, owned := if dir then p.owned + {l} else p.owned);
      Elsewhere(p, p', l) && At(p', l) == At(p, l).(session := true, owned := dir || At(p, l).owned)
  {
  }

  lemma RegisteredSlot(p: Pool, l: Launch, dir: bool)
    requires !p.shuttingDown
    ensures var p' := Launched(p, l, dir); var s := At(p, l);
      && Elsewhere(p, p', l) && p'.watch == p.watch
      && At(p', l) == s.(fate := Some(Resolved), phase := Some(Returning(true)), session := true, owned := dir || s.owned)
  {
    hide At, Elsewhere;
    FateEdit(p, l, Resolved);
    var p1 := p.(fate := p.fate[l := Resolved]);
    PhaseEdit(p1, l, Returning(true));
    var p2 := p1.(acquires := p1.acquires[l := Returning(true)]);
    ElsewhereTransitive(p, p1, p2, l);
    RegisterEdit(p2, l, dir);
    ElsewhereTransitive(p, p2, Launched(p, l, dir), l);
  }

  lemma ShutOutSlot(p: Pool, l: Launch, dir: bool)
    requires p.shuttingDown
    ensures var p' := Launched(p, l, dir); var s := At(p, l);
      && Elsewhere(p, p', l) && p'.watch == p.watch
      && At(p', l) == s.(fate := Some(Resolved), phase := Some(Reaping), orphan := true, tearing := true,
                         rec := Some(NewRec(dir, None, false).(session := true)))
  {
    hide At, Elsewhere;
    FateEdit(p, l, Resolved);
    var p1 := p.(fate := p.fate[l := Resolved]);
    PhaseEdit(p1, l, Reaping);
    var p2 := p1.(acquires := p1.acquires[l := Reaping]);
    ElsewhereTransitive(p, p1, p2, l);
    CountEdit(p2, l);
    var p3 := p2.(orphans := p2.orphans + {l});
    ElsewhereTransitive(p, p2, p3, l);
    TearingEdit(p3, l);
    var p4 := p3.(tearing := p3.tearing + {l});
    ElsewhereTransitive(p, p3, p4, l);
    RecEdit(p4, l, NewRec(dir, None, false).(session := true));
    ElsewhereTransitive(p, p4, Launched(p, l, dir), l);
  }

  lemma FailedSlot(p: Pool, l: Launch, dir: bool)
    requires l in p.meta && Distinct(p.watch)
    ensures var p' := LaunchFailed(p, l, dir);
      var s := At(p, l).(phase := Some(Returning(false)), fate := Some(Rejected), made := Making(At(p, l), dir));
      && Elsewhere(p, p', l) && Distinct(p'.watch)
      && At(p', l) == if dir then s.(orphan := true, rec := Some(NewRec(true, p.meta[l], true).(sweeping := true))) else s
  {
    hide Elsewhere, At, Distinct, SweepStart, DirOf;
    FailedEdit(p, l, dir);
    var p1 := p.(acquires := p.acquires[l := Returning(false)], fate := p.fate[l := Rejected], dirs := Minted(p, l, dir));
    if dir {
      EnqueueSlot(p1, l, NewRec(true, p.meta[l], true));
      ElsewhereTransitive(p, p1, LaunchFailed(p, l, dir), l);
    }
  }

  lemma FailedEdit(p: Pool, l: Launch, dir: bool)
    ensures var p' := p.(acquires := p.acquires[l := Returning(false)], fate := p.fate[l := Rejected], dirs := Minted(p, l, dir));
      && Elsewhere(p, p', l)
      && At(p', l) == At(p, l).(phase := Some(Returning(false)), fate := Some(Rejected), made := Making(At(p, l), dir))
  {
    hide At, Elsewhere, Making;
    PhaseEdit(p, l, Returning(false));
    var p1 := p.(acquires := p.acquires[l := Returning(false)]);
    FateEdit(p1, l, Rejected);
    var p2 := p1.(fate := p1.fate[l := Rejected]);
    ElsewhereTransitive(p, p1, p2, l);
    MintEdit(p2, l, dir);
    assert Minted(p2, l, dir) == Minted(p, l, dir) && Making(At(p2, l), dir) == Making(At(p, l), dir) by { MakingAlike(p, p2, l, dir); }
    hide Minted;
    ElsewhereTransitive(p, p2, p2.(dirs := Minted(p2, l, dir)), l);
  }

  lemma MakingAlike(p: Pool, p': Pool, l: Launch, dir: bool)
    requires p'.dirs == p.dirs
    ensures Minted(p', l, dir) == Minted(p, l, dir) && Making(At(p', l), dir) == Making(At(p, l), dir)
  {
  }

  lemma EnqueueSlot(p: Pool, l: Launch, rec: Rec)
    requires Distinct(p.watch) && !rec.sweeping && !rec.session
    ensures var p' := Enqueue(p, l, rec); var s := At(p, l);
      && Elsewhere(p, p', l) && Distinct(p'.watch)
      && At(p', l) == if rec.dir then s.(orphan := true, rec := Some(rec.(sweeping := true)))
                      else s.(orphan := false, watched := false, rec := Some(rec))
  {
    hide Elsewhere, At, Distinct, SweepStart;
    RecEdit(p, l, rec);
    var p1 := p.(recs := p.recs[l := rec]);
    CountEdit(p1, l);
    var p2 := p1.(orphans := p1.orphans + {l});
    ElsewhereTransitive(p, p1, p2, l);
    SweepStartSlot(p2, l);
    ElsewhereTransitive(p, p2, SweepStart(p2, l), l);
  }

  lemma TimedOutSlot(p: Pool, l: Launch, dir: bool)
    requires l in p.meta && Distinct(p.watch)
    ensures var p' := LaunchTimedOut(p, l, dir); var s := At(p, l).(phase := Some(Returning(false)));
      && Elsewhere(p, p', l) && Distinct(p'.watch)
      && var rec := NewRec(dir, p.meta[l], false);
         At(p', l) == if dir then s.(orphan := true, rec := Some(rec.(sweeping := true)))
                      else s.(orphan := false, watched := false, rec := Some(rec))
  {
    hide Elsewhere, At, Distinct, Enqueue;
    PhaseEdit(p, l, Returning(false));
    var p1 := p.(acquires := p.acquires[l := Returning(false)]);
    EnqueueSlot(p1, l, NewRec(dir, p.meta[l], false));
    ElsewhereTransitive(p, p1, LaunchTimedOut(p, l, dir), l);
  }

  lemma LateResolveSlot(p: Pool, l: Launch)
    requires l in p.recs && Distinct(p.watch)
    ensures var p' := LateResolve(p, l); var s := At(p, l);
      && Elsewhere(p, p', l) && Distinct(p'.watch)
      && At(p', l) == s.(fate := Some(Resolved), rec := Some(p.recs[l].(settled := true, session := true)),
                         watched := false, orphan := true, tearing := true)
  {
    hide Elsewhere, At, Distinct, Without;
    var r := p.recs[l].(settled := true, session := true);
    FateEdit(p, l, Resolved);
    var p1 := p.(fate := p.fate[l := Resolved]);
    RecEdit(p1, l, r);
    var p2 := p1.(recs := p1.recs[l := r]);
    ElsewhereTransitive(p, p1, p2, l);
    UnwatchEdit(p2, l);
    var p3 := p2.(watch := Without(p2.watch, l));
    ElsewhereTransitive(p, p2, p3, l);
    CountEdit(p3, l);
    var p4 := p3.(orphans := p3.orphans + {l});
    ElsewhereTransitive(p, p3, p4, l);
    TearingEdit(p4, l);
    ElsewhereTransitive(p, p4, p4.(tearing := p4.tearing + {l}), l);
  }

  /** The late rejection up to its sweep: settled, and counted unless it was already watched. */
  function LateRejected(p: Pool, l: Launch): Pool
    requires l in p.recs
  {
    p.(fate := p.fate[l := Rejected], recs := p.recs[l := p.recs[l].(settled := true)],
       orphans := if l in p.watch then p.orphans else p.orphans + {l})
  }

  lemma LateRejectedSlot(p: Pool, l: Launch)
    requires l in p.recs
    ensures var p' := LateRejected(p, l); var s := At(p, l);
      && Elsewhere(p, p', l)
      && At(p', l) == s.(fate := Some(Rejected), rec := Some(p.recs[l].(settled := true)), orphan := s.orphan || !s.watched)
  {
    hide Elsewhere, At;
    AtRec(p, l);
    var r := p.recs[l].(settled := true);
    FateEdit(p, l, Rejected);
    var p1 := p.(fate := p.fate[l := Rejected]);
    RecEdit(p1, l, r);
    var p2 := p1.(recs := p1.recs[l := r]);
    ElsewhereTransitive(p, p1, p2, l);
    if l in p.watch {
      assert LateRejected(p, l) == p2;
    } else {
      CountEdit(p2, l);
      ElsewhereTransitive(p, p2, p2.(orphans := p2.orphans + {l}), l);
    }
  }

  lemma LateRejectSlot(p: Pool, l: Launch)
    requires l in p.recs && Distinct(p.watch)
    ensures var p' := LateReject(p, l); var r := p.recs[l].(settled := true);
      var s := At(p, l).(fate := Some(Rejected), rec := Some(r), orphan := At(p, l).orphan || !At(p, l).watched);
      && Elsewhere(p, p', l) && Distinct(p'.watch)
      && At(p', l) == (if r.sweeping || r.session then s
                       else if !r.dir then s.(orphan := false, watched := false)
                       else s.(rec := Some(r.(sweeping := true))))
  {
    hide Elsewhere, At, Distinct, Without, SweepStart;
    LateRejectedSlot(p, l);
    var p1 := LateRejected(p, l);
    SweepStartSlot(p1, l);
    ElsewhereTransitive(p, p1, SweepStart(p1, l), l);
  }

  // -- sweeps settling ----------------------------------------------------------------------------

  /** A sweep's verdict, written down. */
  function Judged(r: Rec, o: Outcome): Rec { r.(sweeping := false, stamps := if o.Unconfirmed? then o.owed else []) }

  lemma DeferredSweepSlot(p: Pool, l: Launch, r: Rec)
    requires l in p.recs && Distinct(p.watch)
    ensures var p' := SettleReaped(p.(recs := p.recs[l := r]), l);
      Elsewhere(p, p', l) && Distinct(p'.watch) && At(p', l) == Settled(At(p, l).(rec := Some(r)))
  {
    hide Elsewhere, At, Distinct, SettleReaped, Settled;
    RecEdit(p, l, r);
    var p1 := p.(recs := p.recs[l := r]);
    SettleSlot(p1, l);
    ElsewhereTransitive(p, p1, SettleReaped(p1, l), l);
  }

  /** What a verdict nobody deferred does to the slot, short of parking it on the watch list. */
  lemma VerdictSlot(p: Pool, l: Launch, r: Rec)
    requires l in p.recs && Distinct(p.watch)
    ensures var p1 := p.(recs := p.recs[l := r]); var s := At(p, l).(rec := Some(r));
      && Elsewhere(p, p1, l) && At(p1, l) == s
      && var gone := p1.(orphans := p1.orphans - {l}, watch := Without(p1.watch, l), dirs := p1.dirs[l := Dropped(DirOf(p1, l))]);
      && Elsewhere(p, gone, l) && Distinct(gone.watch) && At(gone, l) == s.(orphan := false, watched := false, made := Some(Dropped(s.made)))
      && var counted := p1.(orphans := p1.orphans + {l}, watch := Without(p1.watch, l));
      && Elsewhere(p, counted, l) && Distinct(counted.watch) && At(counted, l) == s.(orphan := true, watched := false)
      && var uncounted := p1.(orphans := p1.orphans - {l});
      && Elsewhere(p, uncounted, l) && At(uncounted, l) == s.(orphan := false)
  {
    hide Elsewhere, At, Distinct, Without;
    RecEdit(p, l, r);
    var p1 := p.(recs := p.recs[l := r]);
    GoneSlot(p, p1, l);
    UncountEdit(p1, l);
    ElsewhereTransitive(p, p1, p1.(orphans := p1.orphans - {l}), l);
    UnwatchEdit(p1, l);
    var p2 := p1.(watch := Without(p1.watch, l));
    CountEdit(p2, l);
    ElsewhereTransitive(p, p1, p2, l);
    ElsewhereTransitive(p, p2, p2.(orphans := p2.orphans + {l}), l);
  }

  lemma DropEdit(p: Pool, l: Launch)
    ensures var p' := p.(dirs := p.dirs[l := Dropped(DirOf(p, l))]);
      Elsewhere(p, p', l) && At(p', l) == At(p, l).(made := Some(Dropped(At(p, l).made)))
  {
  }

  lemma GoneSlot(p: Pool, p1: Pool, l: Launch)
    requires Distinct(p1.watch) && Elsewhere(p, p1, l)
    ensures var gone := p1.(orphans := p1.orphans - {l}, watch := Without(p1.watch, l), dirs := p1.dirs[l := Dropped(DirOf(p1, l))]); var s := At(p1, l);
      && Elsewhere(p, gone, l) && Distinct(gone.watch) && At(gone, l) == s.(orphan := false, watched := false, made := Some(Dropped(s.made)))
  {
    hide Elsewhere, At, Distinct, Without, DirOf;
    UnlistEdit(p1, l);
    var p2 := p1.(orphans := p1.orphans - {l}, watch := Without(p1.watch, l));
    ElsewhereTransitive(p, p1, p2, l);
    SameDir(p1, p2, l);
    DropEdit(p2, l);
    ElsewhereTransitive(p, p2, p2.(dirs := p2.dirs[l := Dropped(DirOf(p2, l))]), l);
  }

  lemma FinalVerdictSlot(p: Pool, l: Launch, r: Rec)
    requires l in p.recs && Distinct(p.watch)
    ensures var p' := Finalize(p.(recs := p.recs[l := r]), l); var s := At(p, l);
      && Elsewhere(p, p', l) && Distinct(p'.watch)
      && At(p', l) == (if r.dir then s.(orphan := false, watched := false, rec := Some(r.(dir := false)), made := Some(Removed(s.made)))
                       else s.(orphan := false, watched := false, rec := Some(r)))
  {
    hide Elsewhere, At, Distinct, Finalize;
    RecEdit(p, l, r);
    var p1 := p.(recs := p.recs[l := r]);
    FinalizeSlot(p1, l);
    ElsewhereTransitive(p, p1, Finalize(p1, l), l);
  }

  lemma WatchEdit(p: Pool, l: Launch)
    requires Distinct(p.watch) && l !in p.watch
    ensures var p' := p.(watch := p.watch + [l]);
      Elsewhere(p, p', l) && At(p', l) == At(p, l).(watched := true) && Distinct(p'.watch)
  {
  }

  /** Parking a record nothing was found for: the watch list ends within its cap, or all older entries are mid-sweep. */
  lemma ParkKeeps(p: Pool, l: Launch)
    requires Tidy(p) && l !in p.watch && SlotOk(At(p, l).(watched := true))
    ensures var p' := WatchLaunch(p, l);
      && Tidy(p') && l in p'.watch
      && (|p'.watch| <= MAX_WATCHED || forall k | k in p'.watch && k != l :: !Evictable(p', k))
  {
    hide At, Evict, SlotOk;
    EvictSlots(p, 1);
    AtRec(p, l);
    var p1 := EnforceWatchCap(p, 1);
    WatchEdit(p1, l);
    TidyBy(p1, WatchLaunch(p, l), l);
  }

  lemma TidySlot(p: Pool, l: Launch)
    requires Tidy(p)
    ensures SlotOk(At(p, l)) && Distinct(p.watch)
  {
  }

  /** A deferred settlement resumes with the verdict in hand; its core is dead, so everything is allowed. */
  lemma ResumedOk(s: Slot, r: Rec)
    requires SlotOk(s) && s.rec.Some? && s.rec.value.settleAfterSweep
    requires r == s.rec.value.(sweeping := false, settleAfterSweep := false, stamps := r.stamps)
    ensures SlotOk(Settled(s.(rec := Some(r))))
  {
  }

  lemma UndeferredOk(s: Slot, r: Rec)
    requires SlotOk(s) && s.rec.Some? && s.rec.value.sweeping && !s.rec.value.settleAfterSweep
    requires r == s.rec.value.(sweeping := false, stamps := r.stamps)
    ensures r.session && (r.stamps != [] ==> s.orphan) ==> SlotOk(s.(rec := Some(r)))
    ensures !r.session ==> SlotOk(s.(rec := Some(r), orphan := true, watched := false))
    ensures !r.session && r.stamps == [] ==> SlotOk(s.(rec := Some(r), orphan := false, watched := false, made := Some(Dropped(s.made))))
    ensures !r.session && r.stamps == [] && !r.settled ==> SlotOk(s.(rec := Some(r), orphan := false, watched := true))
    ensures !r.session && r.stamps == [] && !r.settled ==> SlotOk(s.(rec := Some(r), orphan := false))
    ensures !r.session && r.stamps == [] && r.settled ==>
      && r.dir && SlotOk(s.(orphan := false, watched := false, rec := Some(r.(dir := false)), made := Some(Removed(s.made))))
    ensures r.stamps == s.rec.value.stamps && !s.watched ==> SlotOk(s.(rec := Some(r)))
  {
  }

  lemma SweepingIsMember(s: Slot)
    requires SlotOk(s) && s.rec.Some? && s.rec.value.sweeping
    ensures s.orphan != s.watched && s.rec.value.dir
    ensures s.rec.value.session ==> s.orphan
  {
  }

  lemma SweepDoneKeeps(p: Pool, l: Launch, o: Outcome)
    requires Tidy(p) && l in p.recs && p.recs[l].sweeping
    ensures Tidy(SweepDone(p, l, o))
    ensures var w := SweepDone(p, l, o).watch;
      |w| <= |p.watch| || |w| <= MAX_WATCHED || forall k | k in w && k != l :: !Evictable(SweepDone(p, l, o), k)
  {
    hide At, Elsewhere, Distinct, Slots, Tidy, SlotOk, SettleReaped, Settled, Finalize, Without, WatchLaunch;
    TidySlot(p, l);
    AtRec(p, l);
    var s := At(p, l);
    var r := Judged(p.recs[l], o);
    SweepingIsMember(s);
    if r.settleAfterSweep {
      var r1 := r.(settleAfterSweep := false);
      ResumedOk(s, r1);
      DeferredSweepSlot(p, l, r1);
      TidyBy(p, SettleReaped(p.(recs := p.recs[l := r1]), l), l);
      SettleShrinksWatch(p.(recs := p.recs[l := r1]), l);
    } else {
      VerdictKeeps(p, l, o);
    }
  }

  lemma {:induction false} WithoutIsShorter(watch: seq<Launch>, l: Launch)
    ensures |Without(watch, l)| <= |watch|
  {
    if watch != [] { WithoutIsShorter(watch[1..], l); }
  }

  lemma SweepStartShrinksWatch(p: Pool, l: Launch)
    requires l in p.recs
    ensures |SweepStart(p, l).watch| <= |p.watch|
  {
    hide Without;
    WithoutIsShorter(p.watch, l);
  }

  lemma FinalizeShrinksWatch(p: Pool, l: Launch)
    requires l in p.recs
    ensures |Finalize(p, l).watch| <= |p.watch|
  {
    hide Without;
    WithoutIsShorter(p.watch, l);
  }

  lemma SettleShrinksWatch(p: Pool, l: Launch)
    requires l in p.recs
    ensures |SettleReaped(p, l).watch| <= |p.watch|
  {
    hide SweepStart, Finalize;
    FinalizeShrinksWatch(p, l);
    SweepStartShrinksWatch(p.(recs := p.recs[l := p.recs[l].(session := false)], orphans := p.orphans + {l}), l);
  }

  /** A verdict nobody deferred: the record is finalized, parked, released or counted again. */
  lemma VerdictKeeps(p: Pool, l: Launch, o: Outcome)
    requires Tidy(p) && l in p.recs && p.recs[l].sweeping && !p.recs[l].settleAfterSweep
    ensures Tidy(SweepDone(p, l, o))
    ensures var w := SweepDone(p, l, o).watch;
      |w| <= |p.watch| || |w| <= MAX_WATCHED || forall k | k in w && k != l :: !Evictable(SweepDone(p, l, o), k)
  {
    hide At, Elsewhere, Distinct, Slots, Tidy, SlotOk, Finalize, Without, WatchLaunch, SettleReaped;
    TidySlot(p, l);
    AtRec(p, l);
    var s := At(p, l);
    var r := Judged(p.recs[l], o);
    SweepingIsMember(s);
    UndeferredOk(s, r);
    VerdictSlot(p, l, r);
    WithoutIsShorter(p.watch, l);
    var p1 := p.(recs := p.recs[l := r]);
    if r.session {
      TidyBy(p, p1, l);
    } else if o.Confirmed? && r.settled {
      FinalVerdictSlot(p, l, r);
      TidyBy(p, Finalize(p1, l), l);
      FinalizeShrinksWatch(p1, l);
    } else if o.Confirmed? {
      ConfirmedPendingKeeps(p, l, r);
    } else if o.Unsupported? {
      TidyBy(p, p1.(orphans := p1.orphans - {l}, watch := Without(p1.watch, l), dirs := p1.dirs[l := Dropped(DirOf(p1, l))]), l);
    } else {
      TidyBy(p, p1.(orphans := p1.orphans + {l}, watch := Without(p1.watch, l)), l);
    }
  }

  /** An empty scan over a launch still pending frees the slot but keeps the record under the sweep. */
  lemma ConfirmedPendingKeeps(p: Pool, l: Launch, r: Rec)
    requires Tidy(p) && l in p.recs && p.recs[l].sweeping && !p.recs[l].settleAfterSweep
    requires r == p.recs[l].(sweeping := false, stamps := []) && !r.session && !r.settled
    ensures var p1 := p.(recs := p.recs[l := r]);
      var p' := if l in p1.orphans then WatchLaunch(p1.(orphans := p1.orphans - {l}), l) else p1;
      && Tidy(p')
      && (|p'.watch| <= |p.watch| || |p'.watch| <= MAX_WATCHED || forall k | k in p'.watch && k != l :: !Evictable(p', k))
  {
    hide At, Elsewhere, Distinct, Slots, Tidy, SlotOk, Without, WatchLaunch, Evictable;
    TidySlot(p, l);
    AtRec(p, l);
    SweepingIsMember(At(p, l));
    UndeferredOk(At(p, l), r);
    VerdictSlot(p, l, r);
    var p1 := p.(recs := p.recs[l := r]);
    if l in p.orphans {
      var p2 := p1.(orphans := p1.orphans - {l});
      TidyBy(p, p2, l);
      AtRec(p2, l);
      assert At(p2, l).(watched := true) == At(p, l).(rec := Some(r), orphan := false, watched := true);
      ParkKeeps(p2, l);
    } else {
      TidyBy(p, p1, l);
    }
  }

  lemma SweepErrorKeeps(p: Pool, l: Launch)
    requires Tidy(p) && l in p.recs && p.recs[l].sweeping
    ensures Tidy(SweepError(p, l)) && |SweepError(p, l).watch| <= |p.watch|
  {
    hide At, Elsewhere, Distinct, Slots, Tidy, SlotOk, SettleReaped, Settled, Without;
    TidySlot(p, l);
    AtRec(p, l);
    var s := At(p, l);
    var r := p.recs[l].(sweeping := false);
    SweepingIsMember(s);
    if r.settleAfterSweep {
      var r1 := r.(settleAfterSweep := false);
      ResumedOk(s, r1);
      DeferredSweepSlot(p, l, r1);
      TidyBy(p, SettleReaped(p.(recs := p.recs[l := r1]), l), l);
      SettleShrinksWatch(p.(recs := p.recs[l := r1]), l);
    } else {
      UndeferredOk(s, r);
      VerdictSlot(p, l, r);
      WithoutIsShorter(p.watch, l);
      var p1 := p.(recs := p.recs[l := r]);
      if l in p.watch {
        WatchedHasNoSession(s);
        TidyBy(p, p1.(orphans := p1.orphans + {l}, watch := Without(p1.watch, l)), l);
      } else {
        TidyBy(p, p1, l);
      }
    }
  }

  lemma WatchedHasNoSession(s: Slot)
    requires SlotOk(s) && s.watched
    ensures s.rec.Some? && !s.rec.value.session
  {
  }

  // -- launches and teardowns ---------------------------------------------------------------------

  lemma DeathEdit(p: Pool, l: Launch)
    ensures var p' := p.(dead := p.dead + {l}, tearing := p.tearing - {l});
      Elsewhere(p, p', l) && At(p', l) == At(p, l).(dead := true, tearing := false)
  {
  }

  lemma UnconfirmedEdit(p: Pool, l: Launch)
    ensures var p' := p.(unconfirmed := p.unconfirmed + {l}, tearing := p.tearing - {l});
      Elsewhere(p, p', l) && At(p', l) == At(p, l).(unconfirmed := true, tearing := false)
  {
  }

  /** An acquire that was waiting for the reap goes on to its `finally`. */
  lemma ReapedKeeps(p: Pool, l: Launch)
    requires Tidy(p)
    ensures Tidy(Reaped(p, l))
  {
    hide At, Elsewhere, Distinct, Slots, Tidy, SlotOk;
    if l in p.acquires && p.acquires[l] == Reaping {
      TidySlot(p, l);
      PhaseEdit(p, l, Returning(false));
      AtPhase(p, l);
      ReapedOk(At(p, l));
      TidyBy(p, Reaped(p, l), l);
    }
  }

  lemma AtPhase(p: Pool, l: Launch)
    ensures At(p, l).phase == if l in p.acquires then Some(p.acquires[l]) else None
    ensures At(p, l).fate == if l in p.fate then Some(p.fate[l]) else None
    ensures At(p, l).tearing == (l in p.tearing) && At(p, l).session == (l in p.sessions)
    ensures At(p, l).closing == (l in p.closing) && At(p, l).unconfirmed == (l in p.unconfirmed) && At(p, l).dead == (l in p.dead)
    ensures At(p, l).owned == (l in p.owned)
  {
  }

  lemma ReapedOk(s: Slot)
    requires SlotOk(s) && s.phase == Some(Reaping)
    ensures SlotOk(s.(phase := Some(Returning(false))))
  {
  }

  lemma TornDownOk(s: Slot)
    requires SlotOk(s) && s.tearing
    ensures s.rec.Some?
    ensures SlotOk(Settled(s.(dead := true, tearing := false)))
    ensures SlotOk(s.(unconfirmed := true, tearing := false))
  {
  }

  lemma OrphanTeardownKeeps(p: Pool, l: Launch)
    requires Tidy(p) && l in p.tearing
    ensures l in p.recs && Tidy(OrphanTeardownOk(p, l)) && Tidy(OrphanTeardownFails(p, l))
  {
    hide At, Elsewhere, Distinct, Slots, Tidy, SlotOk, SettleReaped, Settled, Reaped;
    TidySlot(p, l);
    AtPhase(p, l);
    AtRec(p, l);
    TornDownOk(At(p, l));
    DeathEdit(p, l);
    var p1 := p.(dead := p.dead + {l}, tearing := p.tearing - {l});
    SettleSlot(p1, l);
    ElsewhereTransitive(p, p1, SettleReaped(p1, l), l);
    TidyBy(p, SettleReaped(p1, l), l);
    ReapedKeeps(SettleReaped(p1, l), l);
    UnconfirmedEdit(p, l);
    var p2 := p.(unconfirmed := p.unconfirmed + {l}, tearing := p.tearing - {l});
    TidyBy(p, p2, l);
    ReapedKeeps(p2, l);
  }

  lemma LaunchStepsOk(s: Slot, dir: bool, tag: Option<Consumer>)
    requires SlotOk(s)
    ensures s.phase == Some(Minting) ==> SlotOk(s.(phase := Some(Racing(dir)), fate := Some(Pending), made := Making(s, dir)))
    ensures s.phase == Some(Minting) || s.phase == Some(Racing(dir)) ==>
      && var f := s.(phase := Some(Returning(false)), fate := Some(Rejected), made := Making(s, dir));
      && SlotOk(if dir then f.(orphan := true, rec := Some(NewRec(true, tag, true).(sweeping := true))) else f)
    ensures s.phase == Some(Racing(dir)) ==>
      && var f := s.(phase := Some(Returning(false)));
      && SlotOk(if dir then f.(orphan := true, rec := Some(NewRec(dir, tag, false).(sweeping := true)))
                else f.(orphan := false, watched := false, rec := Some(NewRec(dir, tag, false))))
    ensures s.phase == Some(Racing(dir)) ==>
      && SlotOk(s.(fate := Some(Resolved), phase := Some(Returning(true)), session := true, owned := dir || s.owned))
      && SlotOk(s.(fate := Some(Resolved), phase := Some(Reaping), orphan := true, tearing := true,
                   rec := Some(NewRec(dir, None, false).(session := true))))
    ensures s.phase.Some? && s.phase.value.Returning? ==> SlotOk(s.(phase := None))
  {
  }

  lemma LaunchStepKeeps(p: Pool, l: Launch, dir: bool)
    requires Tidy(p) && l in p.acquires && l in p.meta
    ensures p.acquires[l] == Minting ==> Tidy(LaunchStarts(p, l, dir)) && Tidy(LaunchFailed(p, l, dir))
    ensures p.acquires[l] == Racing(dir) ==> Tidy(LaunchFailed(p, l, dir)) && Tidy(LaunchTimedOut(p, l, dir)) && Tidy(Launched(p, l, dir))
    ensures p.acquires[l].Returning? ==> Tidy(Return(p, l))
  {
    hide At, Elsewhere, Distinct, Slots, Tidy, SlotOk, LaunchStarts, LaunchFailed, LaunchTimedOut, Launched, Return;
    TidySlot(p, l);
    AtPhase(p, l);
    LaunchStepsOk(At(p, l), dir, p.meta[l]);
    if p.acquires[l] == Minting {
      LaunchStartsSlot(p, l, dir);
      TidyBy(p, LaunchStarts(p, l, dir), l);
    }
    if p.acquires[l] == Minting || p.acquires[l] == Racing(dir) {
      FailedSlot(p, l, dir);
      TidyBy(p, LaunchFailed(p, l, dir), l);
    }
    if p.acquires[l] == Racing(dir) {
      TimedOutSlot(p, l, dir);
      TidyBy(p, LaunchTimedOut(p, l, dir), l);
      if p.shuttingDown { ShutOutSlot(p, l, dir); } else { RegisteredSlot(p, l, dir); }
      TidyBy(p, Launched(p, l, dir), l);
    }
    if p.acquires[l].Returning? {
      ReturnSlot(p, l);
      TidyBy(p, Return(p, l), l);
    }
  }

  lemma LateOk(s: Slot)
    requires SlotOk(s) && s.fate == Some(Pending) && s.rec.Some?
    ensures var r := s.rec.value.(settled := true);
      && SlotOk(s.(fate := Some(Resolved), rec := Some(r.(session := true)), watched := false, orphan := true, tearing := true))
      && var f := s.(fate := Some(Rejected), rec := Some(r), orphan := s.orphan || !s.watched);
      && SlotOk(if r.sweeping || r.session then f
                else if !r.dir then f.(orphan := false, watched := false)
                else f.(rec := Some(r.(sweeping := true))))
  {
  }

  lemma LateKeeps(p: Pool, l: Launch)
    requires Tidy(p) && l in p.recs && l in p.fate && p.fate[l] == Pending
    ensures Tidy(LateResolve(p, l)) && Tidy(LateReject(p, l))
  {
    hide At, Elsewhere, Distinct, Slots, Tidy, SlotOk, LateResolve, LateReject;
    TidySlot(p, l);
    AtPhase(p, l);
    AtRec(p, l);
    LateOk(At(p, l));
    LateResolveSlot(p, l);
    TidyBy(p, LateResolve(p, l), l);
    LateRejectSlot(p, l);
    TidyBy(p, LateReject(p, l), l);
  }

  lemma SweepStartOk(s: Slot)
    requires SlotOk(s) && s.rec.Some? && !s.rec.value.sweeping && !s.rec.value.session && Member(s)
    ensures var r := s.rec.value;
      SlotOk(if !r.dir then s.(orphan := false, watched := false) else s.(rec := Some(r.(sweeping := true))))
  {
  }

  lemma SweepStartKeeps(p: Pool, l: Launch)
    requires Tidy(p) && l in p.recs
    ensures Tidy(SweepStart(p, l))
  {
    hide At, Elsewhere, Distinct, Slots, Tidy, SlotOk, SweepStart;
    TidySlot(p, l);
    AtRec(p, l);
    SweepStartSlot(p, l);
    if !p.recs[l].sweeping && !p.recs[l].session && Member(At(p, l)) { SweepStartOk(At(p, l)); }
    TidyBy(p, SweepStart(p, l), l);
  }

  // -- registered sessions ------------------------------------------------------------------------

  lemma ClosingEdit(p: Pool, l: Launch)
    ensures var p' := p.(closing := p.closing + {l}); Elsewhere(p, p', l) && At(p', l) == At(p, l).(closing := true)
  {
  }

  lemma DiedEdit(p: Pool, l: Launch)
    ensures var p' := p.(sessions := p.sessions - {l}, closing := p.closing - {l}, dead := p.dead + {l});
      Elsewhere(p, p', l) && At(p', l) == At(p, l).(session := false, closing := false, dead := true)
  {
  }

  lemma ReconfirmEdit(p: Pool, l: Launch)
    ensures var p' := p.(sessions := p.sessions - {l}, unconfirmed := p.unconfirmed - {l}, dead := p.dead + {l});
      Elsewhere(p, p', l) && At(p', l) == At(p, l).(session := false, unconfirmed := false, dead := true)
  {
  }

  lemma WedgedEdit(p: Pool, l: Launch)
    ensures var p' := p.(unconfirmed := p.unconfirmed + {l}, closing := p.closing - {l});
      Elsewhere(p, p', l) && At(p', l) == At(p, l).(unconfirmed := true, closing := false)
  {
  }

  lemma OwnedEdit(p: Pool, l: Launch)
    ensures var p' := RemoveOwnedDir(p, l); var s := At(p, l);
      && Elsewhere(p, p', l) && p'.watch == p.watch
      && p' == p.(owned := p'.owned, dirs := p'.dirs)
      && At(p', l) == if s.owned then s.(owned := false, made := Some(Removed(s.made))) else s
  {
  }

  function Undirected(s: Slot): Slot { if s.owned then s.(owned := false, made := Some(Removed(s.made))) else s }

  lemma SessionStepsOk(s: Slot)
    requires SlotOk(s)
    ensures s.session && !s.closing && !s.unconfirmed ==> SlotOk(s.(closing := true))
    ensures s.closing ==> SlotOk(s.(unconfirmed := true, closing := false))
    ensures s.closing ==> SlotOk(Undirected(s.(session := false, closing := false, dead := true)))
  {
  }

  lemma ReconfirmOkSlot(s: Slot)
    requires SlotOk(s) && (s.unconfirmed || s.dead)
    ensures var s1 := Undirected(s.(session := false, unconfirmed := false, dead := true));
      SlotOk(if s1.orphan && s1.rec.Some? && s1.rec.value.session then Settled(s1) else s1)
  {
  }

  lemma SessionStepsKeep(p: Pool, l: Launch)
    requires Tidy(p)
    ensures Tidy(BeginTeardown(p, l))
    ensures l in p.closing ==> Tidy(TeardownOk(p, l)) && Tidy(TeardownFails(p, l))
  {
    hide At, Elsewhere, Distinct, Slots, Tidy, SlotOk, RemoveOwnedDir;
    TidySlot(p, l);
    AtPhase(p, l);
    SessionStepsOk(At(p, l));
    ClosingEdit(p, l);
    if l in p.sessions && l !in p.closing && l !in p.unconfirmed { TidyBy(p, BeginTeardown(p, l), l); }
    if l in p.closing {
      WedgedEdit(p, l);
      TidyBy(p, TeardownFails(p, l), l);
      hide Undirected;
      DeathSlot(p, l);
      TidyBy(p, TeardownOk(p, l), l);
    }
  }

  lemma DeathSlot(p: Pool, l: Launch)
    ensures var p' := TeardownOk(p, l);
      && Elsewhere(p, p', l) && p'.watch == p.watch
      && At(p', l) == Undirected(At(p, l).(session := false, closing := false, dead := true))
  {
    hide At, Elsewhere, RemoveOwnedDir, Removed;
    DiedEdit(p, l);
    var p1 := p.(sessions := p.sessions - {l}, closing := p.closing - {l}, dead := p.dead + {l});
    OwnedEdit(p1, l);
    ElsewhereTransitive(p, p1, RemoveOwnedDir(p1, l), l);
  }

  lemma ReconfirmKeeps(p: Pool, l: Launch)
    requires Tidy(p) && (l in p.unconfirmed || l in p.dead)
    ensures Tidy(ReconfirmOk(p, l))
  {
    hide At, Elsewhere, Distinct, Slots, Tidy, SlotOk, RemoveOwnedDir, SettleReaped, Settled;
    TidySlot(p, l);
    AtPhase(p, l);
    ReconfirmOkSlot(At(p, l));
    ReconfirmEdit(p, l);
    var p1 := p.(sessions := p.sessions - {l}, unconfirmed := p.unconfirmed - {l}, dead := p.dead + {l});
    OwnedEdit(p1, l);
    var p2 := RemoveOwnedDir(p1, l);
    ElsewhereTransitive(p, p1, p2, l);
    AtRec(p2, l);
    if l in p2.orphans && l in p2.recs && p2.recs[l].session {
      SettleSlot(p2, l);
      ElsewhereTransitive(p, p2, SettleReaped(p2, l), l);
    }
    TidyBy(p, ReconfirmOk(p, l), l);
  }
}
