/**
 Browser session capacity, from `src/gateway/session-manager.ts`: acquires in flight, registered
 sessions, counted orphan records and the uncounted watch list.

 One acquire makes at most one launch, one core, one profile directory and one record, so one number
 names all of them. Each function below is one synchronous segment between two awaits. `fate`, `dead`,
 `tearing` and `dirs` are history: what the launch really did, which deaths a close or a kill has
 confirmed, which orphan teardowns run, and for each profile directory made how often it was removed and
 whether a host that supports no sweep let it go.
 */
module PoolModel {
  import opened Common

  type Launch = nat
  type Stamp = nat

  const MAX_WATCHED := 32

  /** Where an acquire stands: minting its directory, racing its launch, reaping during a shutdown, done. */
  datatype Phase = Minting | Racing(dir: bool) | Reaping | Returning(registered: bool)

  datatype Fate = Pending | Resolved | Rejected

  datatype Rec = Rec(dir: bool, session: bool, sweeping: bool, consumer: Option<Consumer>,
                     settled: bool, stamps: seq<Stamp>, settleAfterSweep: bool)

  datatype Outcome = Confirmed | Unconfirmed(owed: seq<Stamp>) | Unsupported

  datatype DirFate = DirFate(removals: nat, dropped: bool)

  datatype Pool = Pool(
    max: nat, perConsumer: nat,
    meta: map<Launch, Option<Consumer>>,
    acquires: map<Launch, Phase>,
    reserved: int, reservedBy: map<Consumer, int>,
    sessions: set<Launch>, closing: set<Launch>, unconfirmed: set<Launch>, owned: set<Launch>,
    orphans: set<Launch>, watch: seq<Launch>, recs: map<Launch, Rec>,
    shuttingDown: bool,
    fate: map<Launch, Fate>, dead: set<Launch>, tearing: set<Launch>, dirs: map<Launch, DirFate>)

  function EmptyPool(max: nat, perConsumer: nat): Pool {
    Pool(max, perConsumer, map[], map[], 0, map[], {}, {}, {}, {}, {}, [], map[], false, map[], {}, {}, map[])
  }

  // -- admission ----------------------------------------------------------------------------------

  function ActiveCount(p: Pool): nat { |p.sessions| + |p.orphans| }

  function SessionsOf(p: Pool, c: Consumer): set<Launch> {
    set l | l in p.sessions && l in p.meta && p.meta[l] == Some(c)
  }

  function OrphansOf(p: Pool, c: Consumer): set<Launch> {
    set l | l in p.orphans && l in p.recs && p.recs[l].consumer == Some(c)
  }

  function ReservedBy(p: Pool, c: Consumer): int { if c in p.reservedBy then p.reservedBy[c] else 0 }

  function CountForConsumer(p: Pool, c: Consumer): int {
    ReservedBy(p, c) + |SessionsOf(p, c)| + |OrphansOf(p, c)|
  }

  predicate Admits(p: Pool, tag: Option<Consumer>) {
    && !p.shuttingDown
    && ActiveCount(p) + p.reserved < p.max
    && (tag.Some? ==> CountForConsumer(p, tag.value) < p.perConsumer)
  }

  /** `acquire` up to its first await. */
  function Acquire(p: Pool, l: Launch, tag: Option<Consumer>): Pool
    requires l !in p.meta
  {
    if !Admits(p, tag) then p
    else p.(meta := p.meta[l := tag],
            acquires := p.acquires[l := Minting],
            reserved := p.reserved + 1,
            reservedBy := if tag.Some? then p.reservedBy[tag.value := ReservedBy(p, tag.value) + 1] else p.reservedBy)
  }

  /** The `finally` of `acquire`. */
  function Return(p: Pool, l: Launch): Pool
    requires l in p.acquires && l in p.meta
  {
    var p1 := p.(acquires := p.acquires - {l}, reserved := p.reserved - 1);
    if p.meta[l].None? then p1
    else
      var c := p.meta[l].value;
      var remaining := (if c in p.reservedBy then p.reservedBy[c] else 1) - 1;
      p1.(reservedBy := if remaining > 0 then p.reservedBy[c := remaining] else p.reservedBy - {c})
  }

  // -- the watch list -----------------------------------------------------------------------------

  predicate Evictable(p: Pool, l: Launch) { l in p.recs ==> !p.recs[l].sweeping }

  /** The oldest entry whose sweep is not in flight. */
  function FirstEvictable(p: Pool, watch: seq<Launch>): (r: Option<nat>)
    ensures r.Some? ==> r.value < |watch| && Evictable(p, watch[r.value])
    ensures r.Some? ==> forall i | 0 <= i < r.value :: !Evictable(p, watch[i])
    ensures r.None? ==> forall i | 0 <= i < |watch| :: !Evictable(p, watch[i])
  {
    if watch == [] then None
    else if Evictable(p, watch[0]) then Some(0)
    else
      var rest := FirstEvictable(p, watch[1..]);
      if rest.Some? then Some(rest.value + 1) else None
  }

  function Without(watch: seq<Launch>, l: Launch): seq<Launch> {
    if watch == [] then [] else (if watch[0] == l then [] else [watch[0]]) + Without(watch[1..], l)
  }

  function DropAt(watch: seq<Launch>, i: nat): seq<Launch>
    requires i < |watch|
  {
    watch[..i] + watch[i + 1..]
  }

  /** Evict oldest non-sweeping entries until there is room for `reserve` more. */
  function Evict(p: Pool, watch: seq<Launch>, reserve: nat): seq<Launch>
    decreases |watch|
  {
    if |watch| + reserve <= MAX_WATCHED || FirstEvictable(p, watch).None? then watch
    else Evict(p, DropAt(watch, FirstEvictable(p, watch).value), reserve)
  }

  function EnforceWatchCap(p: Pool, reserve: nat): Pool { p.(watch := Evict(p, p.watch, reserve)) }

  function WatchLaunch(p: Pool, l: Launch): Pool {
    var p1 := EnforceWatchCap(p, 1);
    p1.(watch := p1.watch + [l])
  }

  // -- orphan records -----------------------------------------------------------------------------

  function DirOf(p: Pool, l: Launch): Option<DirFate> { if l in p.dirs then Some(p.dirs[l]) else None }

  function Removed(d: Option<DirFate>): DirFate { if d.Some? then d.value.(removals := d.value.removals + 1) else DirFate(1, false) }

  function Dropped(d: Option<DirFate>): DirFate { if d.Some? then d.value.(dropped := true) else DirFate(0, true) }

  function Removals(p: Pool, l: Launch): nat { if l in p.dirs then p.dirs[l].removals else 0 }

  /** Single-flight; stands down for a late core, and forgets a record nothing can be found for. */
  function SweepStart(p: Pool, l: Launch): Pool
    requires l in p.recs
  {
    var rec := p.recs[l];
    if rec.sweeping || rec.session then p
    else if l !in p.orphans && l !in p.watch then p
    else if !rec.dir then p.(orphans := p.orphans - {l}, watch := Without(p.watch, l))
    else p.(recs := p.recs[l := rec.(sweeping := true)])
  }

  /** The directory goes with the record, and is never removed twice. */
  function Finalize(p: Pool, l: Launch): Pool
    requires l in p.recs
  {
    var p1 := p.(orphans := p.orphans - {l}, watch := Without(p.watch, l));
    if !p.recs[l].dir then p1
    else p1.(recs := p.recs[l := p.recs[l].(dir := false)], dirs := p.dirs[l := Removed(DirOf(p, l))])
  }

  /** After a reaped core's death: wait for a running sweep, hand owed groups back to the sweep, or finish. */
  function SettleReaped(p: Pool, l: Launch): Pool
    requires l in p.recs
  {
    var rec := p.recs[l];
    if rec.sweeping then p.(recs := p.recs[l := rec.(settleAfterSweep := true)], orphans := p.orphans + {l})
    else if rec.dir && rec.stamps != [] then
      SweepStart(p.(recs := p.recs[l := rec.(session := false)], orphans := p.orphans + {l}), l)
    else Finalize(p, l)
  }

  function SweepDone(p: Pool, l: Launch, o: Outcome): Pool
    requires l in p.recs && p.recs[l].sweeping
  {
    var rec := p.recs[l].(sweeping := false, stamps := if o.Unconfirmed? then o.owed else []);
    if rec.settleAfterSweep then SettleReaped(p.(recs := p.recs[l := rec.(settleAfterSweep := false)]), l)
    else
      var p1 := p.(recs := p.recs[l := rec]);
      if rec.session then p1
      else
        match o
        case Confirmed =>
          if rec.settled then Finalize(p1, l)
          else if l in p1.orphans then WatchLaunch(p1.(orphans := p1.orphans - {l}), l)
          else p1
        case Unsupported => p1.(orphans := p1.orphans - {l}, watch := Without(p1.watch, l), dirs := p1.dirs[l := Dropped(DirOf(p1, l))])
        case Unconfirmed(_) => p1.(orphans := p1.orphans + {l}, watch := Without(p1.watch, l))
  }

  /** A failed scan proves nothing: a watched record is counted again. */
  function SweepError(p: Pool, l: Launch): Pool
    requires l in p.recs && p.recs[l].sweeping
  {
    var rec := p.recs[l].(sweeping := false);
    if rec.settleAfterSweep then SettleReaped(p.(recs := p.recs[l := rec.(settleAfterSweep := false)]), l)
    else
      var p1 := p.(recs := p.recs[l := rec]);
      if l in p1.watch then p1.(watch := Without(p1.watch, l), orphans := p1.orphans + {l}) else p1
  }

  function Enqueue(p: Pool, l: Launch, rec: Rec): Pool {
    SweepStart(p.(recs := p.recs[l := rec], orphans := p.orphans + {l}), l)
  }

  function NewRec(dir: bool, tag: Option<Consumer>, settled: bool): Rec {
    Rec(dir, false, false, tag, settled, [], false)
  }

  // -- launching ----------------------------------------------------------------------------------

  /** The launch's own directory, if one is made for it. */
  function Minted(p: Pool, l: Launch, dir: bool): map<Launch, DirFate> {
    if dir && l !in p.dirs then p.dirs[l := DirFate(0, false)] else p.dirs
  }

  function LaunchStarts(p: Pool, l: Launch, dir: bool): Pool {
    p.(acquires := p.acquires[l := Racing(dir)], fate := p.fate[l := Pending], dirs := Minted(p, l, dir))
  }

  /** The factory threw, or the race was lost to a rejection: the launch has settled. */
  function LaunchFailed(p: Pool, l: Launch, dir: bool): Pool
    requires l in p.meta
  {
    var p1 := p.(acquires := p.acquires[l := Returning(false)], fate := p.fate[l := Rejected], dirs := Minted(p, l, dir));
    if dir then Enqueue(p1, l, NewRec(true, p.meta[l], true)) else p1
  }

  function LaunchTimedOut(p: Pool, l: Launch, dir: bool): Pool
    requires l in p.meta
  {
    Enqueue(p.(acquires := p.acquires[l := Returning(false)]), l, NewRec(dir, p.meta[l], false))
  }

  /** The re-check and the registration are contiguous: nothing registers once shutdown began. */
  function Launched(p: Pool, l: Launch, dir: bool): Pool {
    var p1 := p.(fate := p.fate[l := Resolved]);
    if p.shuttingDown then
      p1.(acquires := p.acquires[l := Reaping], orphans := p.orphans + {l}, tearing := p.tearing + {l},
          recs := p.recs[l := NewRec(dir, None, false).(session := true)])
    else
      p1.(acquires := p.acquires[l := Returning(true)], sessions := p.sessions + {l},
          owned := if dir then p.owned + {l} else p.owned)
  }

  function LateResolve(p: Pool, l: Launch): Pool
    requires l in p.recs
  {
    p.(fate := p.fate[l := Resolved],
       recs := p.recs[l := p.recs[l].(settled := true, session := true)],
       watch := Without(p.watch, l), orphans := p.orphans + {l}, tearing := p.tearing + {l})
  }

  function LateReject(p: Pool, l: Launch): Pool
    requires l in p.recs
  {
    SweepStart(p.(fate := p.fate[l := Rejected],
                  recs := p.recs[l := p.recs[l].(settled := true)],
                  orphans := if l in p.watch then p.orphans else p.orphans + {l}), l)
  }

  function Reaped(p: Pool, l: Launch): Pool {
    if l in p.acquires && p.acquires[l] == Reaping then p.(acquires := p.acquires[l := Returning(false)]) else p
  }

  function OrphanTeardownOk(p: Pool, l: Launch): Pool
    requires l in p.recs
  {
    Reaped(SettleReaped(p.(dead := p.dead + {l}, tearing := p.tearing - {l}), l), l)
  }

  function OrphanTeardownFails(p: Pool, l: Launch): Pool {
    Reaped(p.(unconfirmed := p.unconfirmed + {l}, tearing := p.tearing - {l}), l)
  }

  // -- registered sessions ------------------------------------------------------------------------

  function BeginTeardown(p: Pool, l: Launch): Pool {
    if l !in p.sessions || l in p.closing || l in p.unconfirmed then p else p.(closing := p.closing + {l})
  }

  function RemoveOwnedDir(p: Pool, l: Launch): Pool {
    if l !in p.owned then p else p.(owned := p.owned - {l}, dirs := p.dirs[l := Removed(DirOf(p, l))])
  }

  function TeardownOk(p: Pool, l: Launch): Pool {
    RemoveOwnedDir(p.(sessions := p.sessions - {l}, closing := p.closing - {l}, dead := p.dead + {l}), l)
  }

  function TeardownFails(p: Pool, l: Launch): Pool {
    p.(unconfirmed := p.unconfirmed + {l}, closing := p.closing - {l})
  }

  // -- what a tick and a shutdown start -------------------------------------------------------------

  /** A sweep started for each of a list of records. */
  function SweepEach(p: Pool, order: seq<Launch>): Pool
    decreases |order|
  {
    if order == [] then p
    else SweepEach(if order[0] in p.recs then SweepStart(p, order[0]) else p, order[1..])
  }

  /** The last segment of a tick: the watch list is cut to its cap, then everything owed is swept. */
  function TickSweeps(p: Pool, order: seq<Launch>): Pool { SweepEach(EnforceWatchCap(p, 0), order) }

  /** A teardown begun for each of a list of sessions. */
  function ReleaseEach(p: Pool, order: seq<Launch>): Pool
    decreases |order|
  {
    if order == [] then p else ReleaseEach(BeginTeardown(p, order[0]), order[1..])
  }

  /** A kill-only reconfirm succeeded, for a session or for an anchorless orphan. */
  function ReconfirmOk(p: Pool, l: Launch): Pool {
    var p1 := RemoveOwnedDir(p.(sessions := p.sessions - {l}, unconfirmed := p.unconfirmed - {l}, dead := p.dead + {l}), l);
    if l in p1.orphans && l in p1.recs && p1.recs[l].session then SettleReaped(p1, l) else p1
  }
}
