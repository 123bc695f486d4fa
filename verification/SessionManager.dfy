/** The session manager object: its collections and record flags, moved in place by each segment. */
module SessionPool {
  import opened Common
  import opened M = PoolModel

  class SessionManager {
    const maxSessions: nat
    const perConsumerMax: nat
    var meta: map<Launch, Option<Consumer>>
    var acquires: map<Launch, Phase>
    var reserved: int
    var reservedBy: map<Consumer, int>
    var sessions: set<Launch>
    var closing: set<Launch>
    var unconfirmed: set<Launch>
    var owned: set<Launch>
    var orphans: set<Launch>
    var watch: seq<Launch>
    var recs: map<Launch, Rec>
    var shuttingDown: bool
    ghost var fate: map<Launch, Fate>
    ghost var dead: set<Launch>
    ghost var tearing: set<Launch>
    ghost var dirs: map<Launch, DirFate>

    ghost function View(): Pool reads this {
      Pool(maxSessions, perConsumerMax, meta, acquires, reserved, reservedBy, sessions, closing, unconfirmed, owned,
           orphans, watch, recs, shuttingDown, fate, dead, tearing, dirs)
    }

    constructor (max: nat, perConsumer: nat)
      ensures View() == EmptyPool(max, perConsumer)
    {
      maxSessions, perConsumerMax := max, perConsumer;
      meta, acquires, reserved, reservedBy := map[], map[], 0, map[];
      sessions, closing, unconfirmed, owned := {}, {}, {}, {};
      orphans, watch, recs, shuttingDown := {}, [], map[], false;
      fate, dead, tearing, dirs := map[], {}, {}, map[];
    }

    method CountForConsumer(c: Consumer) returns (n: int)
      ensures n == M.CountForConsumer(View(), c)
    {
      var registered := set l | l in sessions && l in meta && meta[l] == Some(c);
      var live := set l | l in orphans && l in recs && recs[l].consumer == Some(c);
      n := (if c in reservedBy then reservedBy[c] else 0) + |registered| + |live|;
      assert registered == SessionsOf(View(), c) && live == OrphansOf(View(), c);
    }

    /** The gates of `acquire`: the shutdown, the global cap, the consumer's own. */
    method MayAcquire(tag: Option<Consumer>) returns (ok: bool)
      ensures ok == M.Admits(View(), tag)
    {
      hide M.CountForConsumer;
      if shuttingDown { return false; }
      if |sessions| + |orphans| + reserved >= maxSessions { return false; }
      if tag.Some? {
        var count := CountForConsumer(tag.value);
        if count >= perConsumerMax { return false; }
      }
      ok := true;
    }

    /** Up to the first await; `admitted` is false when the source throws SESSION_LIMIT. */
    method Acquire(l: Launch, tag: Option<Consumer>) returns (admitted: bool)
      requires l !in meta
      modifies this`meta, this`acquires, this`reserved, this`reservedBy
      ensures View() == M.Acquire(old(View()), l, tag) && admitted == M.Admits(old(View()), tag)
    {
      hide M.Admits;
      admitted := MayAcquire(tag);
      if !admitted { return; }
      reserved := reserved + 1;
      if tag.Some? {
        reservedBy := reservedBy[tag.value := (if tag.value in reservedBy then reservedBy[tag.value] else 0) + 1];
      }
      meta, acquires := meta[l := tag], acquires[l := Minting];
    }

    /** The `finally` of `acquire`. */
    method Return(l: Launch)
      requires l in acquires && l in meta
      modifies this`acquires, this`reserved, this`reservedBy
      ensures View() == M.Return(old(View()), l)
    {
      reserved := reserved - 1;
      if meta[l].Some? {
        var c := meta[l].value;
        var remaining := (if c in reservedBy then reservedBy[c] else 1) - 1;
        reservedBy := if remaining > 0 then reservedBy[c := remaining] else reservedBy - {c};
      }
      acquires := acquires - {l};
    }

    /** Evict oldest non-sweeping watch entries until `size + reserve` is within the cap. */
    method EnforceWatchCap(reserve: nat)
      modifies this`watch
      ensures View() == M.EnforceWatchCap(old(View()), reserve)
    {
      ghost var p := View();
      while |watch| + reserve > MAX_WATCHED
        invariant View() == p.(watch := watch)
        invariant Evict(p, watch, reserve) == Evict(p, old(watch), reserve)
        decreases |watch|
      {
        var i := FirstIdle();
        if i.None? { return; }
        watch := DropAt(watch, i.value);
      }
    }

    method FirstIdle() returns (r: Option<nat>)
      ensures r.Some? ==> r.value < |watch|
      ensures forall p: Pool | p.recs == recs :: r == FirstEvictable(p, watch)
    {
      var i := 0;
      while i < |watch|
        invariant 0 <= i <= |watch|
        invariant forall j | 0 <= j < i :: watch[j] in recs && recs[watch[j]].sweeping
      {
        if !(watch[i] in recs && recs[watch[i]].sweeping) {
          forall p: Pool | p.recs == recs ensures FirstEvictable(p, watch) == Some(i) {
            assert Evictable(p, watch[i]);
          }
          return Some(i);
        }
        i := i + 1;
      }
      r := None;
    }

    method WatchLaunch(l: Launch)
      modifies this`watch
      ensures View() == M.WatchLaunch(old(View()), l)
    {
      EnforceWatchCap(1);
      watch := watch + [l];
    }

    /** Start one bounded sweep, unless one runs, a core owns the record, or there is nothing to find. */
    method SweepOrphan(l: Launch)
      requires l in recs
      modifies this`orphans, this`watch, this`recs
      ensures View() == M.SweepStart(old(View()), l)
    {
      if recs[l].sweeping || recs[l].session { return; }
      if l !in orphans && l !in watch { return; }
      if !recs[l].dir {
        orphans, watch := orphans - {l}, Without(watch, l);
        return;
      }
      recs := recs[l := recs[l].(sweeping := true)];
    }

    method FinalizeOrphan(l: Launch)
      requires l in recs
      modifies this`orphans, this`watch, this`recs, this`dirs
      ensures View() == M.Finalize(old(View()), l)
    {
      orphans, watch := orphans - {l}, Without(watch, l);
      if recs[l].dir {
        recs := recs[l := recs[l].(dir := false)];
        dirs := dirs[l := Removed(if l in dirs then Some(dirs[l]) else None)];
      }
    }

    method SettleReapedOrphan(l: Launch)
      requires l in recs
      modifies this`orphans, this`watch, this`recs, this`dirs
      ensures View() == M.SettleReaped(old(View()), l)
    {
      if recs[l].sweeping {
        recs, orphans := recs[l := recs[l].(settleAfterSweep := true)], orphans + {l};
        return;
      }
      if recs[l].dir && recs[l].stamps != [] {
        recs, orphans := recs[l := recs[l].(session := false)], orphans + {l};
        SweepOrphan(l);
        return;
      }
      FinalizeOrphan(l);
    }

    /** A sweep's verdict arrives. */
    method SweepSettled(l: Launch, o: Outcome)
      requires l in recs && recs[l].sweeping
      modifies this`orphans, this`watch, this`recs, this`dirs
      ensures View() == M.SweepDone(old(View()), l, o)
    {
      hide M.SettleReaped, M.Finalize, M.WatchLaunch, Without, Dropped, DirOf;
      recs := recs[l := recs[l].(sweeping := false, stamps := if o.Unconfirmed? then o.owed else [])];
      if recs[l].settleAfterSweep {
        ghost var r := old(recs)[l].(sweeping := false, stamps := if o.Unconfirmed? then o.owed else [], settleAfterSweep := false);
        recs := recs[l := recs[l].(settleAfterSweep := false)];
        assert recs == old(recs)[l := r];
        SettleReapedOrphan(l);
        return;
      }
      if recs[l].session { return; }
      match o {
        case Confirmed =>
          SweptEmpty(l);
        case Unsupported =>
          LetGo(l);
        case Unconfirmed(_) =>
          orphans, watch := orphans + {l}, Without(watch, l);
      }
    }

    /** Nothing was found: final for a settled launch; a pending one is uncounted and watched. */
    method SweptEmpty(l: Launch)
      requires l in recs
      modifies this`orphans, this`watch, this`recs, this`dirs
      ensures var p := old(View());
        View() == if p.recs[l].settled then M.Finalize(p, l)
                  else if l in p.orphans then M.WatchLaunch(p.(orphans := p.orphans - {l}), l) else p
    {
      hide M.Finalize, M.WatchLaunch;
      if recs[l].settled {
        FinalizeOrphan(l);
      } else if l in orphans {
        orphans := orphans - {l};
        WatchLaunch(l);
      }
    }

    /** No host that cannot sweep may hold a slot for it: the record is uncounted and its directory left behind. */
    method LetGo(l: Launch)
      modifies this`orphans, this`watch, this`dirs
      ensures var p := old(View());
        View() == p.(orphans := p.orphans - {l}, watch := Without(p.watch, l), dirs := p.dirs[l := Dropped(DirOf(p, l))])
    {
      orphans, watch := orphans - {l}, Without(watch, l);
      dirs := dirs[l := Dropped(if l in dirs then Some(dirs[l]) else None)];
    }

    method SweepRejected(l: Launch)
      requires l in recs && recs[l].sweeping
      modifies this`orphans, this`watch, this`recs, this`dirs
      ensures View() == M.SweepError(old(View()), l)
    {
      hide M.SettleReaped, Without;
      recs := recs[l := recs[l].(sweeping := false)];
      if recs[l].settleAfterSweep {
        recs := recs[l := recs[l].(settleAfterSweep := false)];
        assert recs == old(recs)[l := old(recs)[l].(sweeping := false, settleAfterSweep := false)];
        SettleReapedOrphan(l);
        return;
      }
      if l in watch {
        watch, orphans := Without(watch, l), orphans + {l};
      }
    }

    method EnqueueOrphan(l: Launch, rec: Rec)
      modifies this`orphans, this`watch, this`recs
      ensures View() == Enqueue(old(View()), l, rec)
    {
      recs, orphans := recs[l := rec], orphans + {l};
      SweepOrphan(l);
    }

    method LaunchTimedOut(l: Launch, dir: bool)
      requires l in meta
      modifies this`acquires, this`orphans, this`watch, this`recs
      ensures View() == M.LaunchTimedOut(old(View()), l, dir)
    {
      hide Enqueue;
      acquires := acquires[l := Returning(false)];
      EnqueueOrphan(l, NewRec(dir, meta[l], false));
    }

    /** The re-check of the shutdown flag and the registration are one segment. */
    method LaunchResolved(l: Launch, dir: bool)
      modifies this`fate, this`acquires, this`orphans, this`tearing, this`recs, this`owned, this`sessions
      ensures View() == Launched(old(View()), l, dir)
    {
      ghost var p := View();
      if shuttingDown {
        ReapAtShutdown(l, dir);
        return;
      }
      fate := fate[l := Resolved];
      if dir { owned := owned + {l}; }
      acquires, sessions := acquires[l := Returning(true)], sessions + {l};
      assert View() == p.(fate := p.fate[l := Resolved], acquires := p.acquires[l := Returning(true)], sessions := p.sessions + {l},
                          owned := if dir then p.owned + {l} else p.owned);
    }

    /** Never registered: a counted record whose core is being torn down. */
    method ReapAtShutdown(l: Launch, dir: bool)
      requires shuttingDown
      modifies this`fate, this`acquires, this`orphans, this`tearing, this`recs
      ensures View() == Launched(old(View()), l, dir)
    {
      fate := fate[l := Resolved];
      recs := recs[l := NewRec(dir, None, false).(session := true)];
      acquires, orphans, tearing := acquires[l := Reaping], orphans + {l}, tearing + {l};
    }

    /** A launch that resolved after its deadline: counted again, and torn down. */
    method ReapLateLaunch(l: Launch)
      requires l in recs
      modifies this`fate, this`recs, this`watch, this`orphans, this`tearing
      ensures View() == M.LateResolve(old(View()), l)
    {
      fate := fate[l := Resolved];
      recs := recs[l := recs[l].(settled := true, session := true)];
      watch := Without(watch, l);
      orphans, tearing := orphans + {l}, tearing + {l};
    }

    method LateRejection(l: Launch)
      requires l in recs
      modifies this`fate, this`recs, this`watch, this`orphans
      ensures View() == M.LateReject(old(View()), l)
    {
      hide M.SweepStart;
      fate := fate[l := Rejected];
      recs := recs[l := recs[l].(settled := true)];
      if l !in watch { orphans := orphans + {l}; }
      SweepOrphan(l);
    }

    method RemoveOwnedDir(l: Launch)
      modifies this`owned, this`dirs
      ensures View() == M.RemoveOwnedDir(old(View()), l)
    {
      if l !in owned { return; }
      owned := owned - {l};
      dirs := dirs[l := Removed(if l in dirs then Some(dirs[l]) else None)];
    }

    method BeginTeardown(l: Launch)
      modifies this`closing
      ensures View() == M.BeginTeardown(old(View()), l)
    {
      if l !in sessions || l in closing || l in unconfirmed { return; }
      closing := closing + {l};
    }

    /** `reapIdle` for its stale sessions, and `shutdown` for all that remain. */
    method ReleaseAll(order: seq<Launch>)
      modifies this`closing
      ensures View() == ReleaseEach(old(View()), order)
    {
      hide M.BeginTeardown;
      for i := 0 to |order|
        invariant ReleaseEach(View(), order[i..]) == ReleaseEach(old(View()), order)
      {
        assert order[i..][1..] == order[i + 1..];
        BeginTeardown(order[i]);
      }
    }

    /** The last segment of a tick; `order` is how the sets of orphans and of watched records list their members. */
    method TickSweep(order: seq<Launch>)
      modifies this`orphans, this`watch, this`recs
      ensures View() == TickSweeps(old(View()), order)
    {
      hide M.SweepStart, M.EnforceWatchCap;
      EnforceWatchCap(0);
      ghost var p := View();
      for i := 0 to |order|
        invariant SweepEach(View(), order[i..]) == SweepEach(p, order)
      {
        assert order[i..][1..] == order[i + 1..];
        if order[i] in recs { SweepOrphan(order[i]); }
      }
    }

    /** The teardown confirmed death: the slot is free now, and only now. */
    method TeardownConfirmed(l: Launch)
      modifies this`sessions, this`closing, this`dead, this`owned, this`dirs
      ensures View() == M.TeardownOk(old(View()), l)
    {
      sessions, closing, dead := sessions - {l}, closing - {l}, dead + {l};
      RemoveOwnedDir(l);
    }

    method TeardownUnconfirmed(l: Launch)
      modifies this`unconfirmed, this`closing
      ensures View() == M.TeardownFails(old(View()), l)
    {
      unconfirmed, closing := unconfirmed + {l}, closing - {l};
    }

    /** One entry of `#drainUnconfirmed` whose kill confirmed. */
    method Reconfirmed(l: Launch)
      modifies this`sessions, this`unconfirmed, this`dead, this`owned, this`dirs, this`orphans, this`watch, this`recs
      ensures View() == M.ReconfirmOk(old(View()), l)
    {
      hide M.SettleReaped, M.RemoveOwnedDir;
      sessions, unconfirmed, dead := sessions - {l}, unconfirmed - {l}, dead + {l};
      RemoveOwnedDir(l);
      if l in orphans && l in recs && recs[l].session {
        SettleReapedOrphan(l);
      }
    }
  }
}
