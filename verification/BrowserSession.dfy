/**
 One browser session of `src/gateway/session.ts`, and the group-confirmed force-kill of
 `src/browser/patchright-core.ts` it escalates to. What the browser and the operating system answer is
 free; `log` is the history of the reads and signals of one kill.
 */
module BrowserSession {
  import opened Common
  import opened OrphanSweep

  // -- force-kill -----------------------------------------------------------------------------------

  datatype KillResult = Resolved | Rejected

  /** The group of the captured browser read as gone: empty or foreign, recycled, or all zombies. */
  predicate OursGoneAt(log: seq<Obs>, k: int, pid: Pid, captured: Option<Generation>) {
    && 0 <= k < |log|
    && (|| log[k] == Probe(pid, NoSuch)
        || log[k] == Probe(pid, Denied)
        || log[k] == Zombies(pid, true)
        || (captured.Some? && k + 1 < |log| && log[k] == Probe(pid, Alive)
            && log[k + 1].StatRead? && log[k + 1].pid == pid && Recycled(log[k + 1].stat, Stamp(pid, captured.value, pid))))
  }

  predicate Signals(o: Obs) { o.Kill? || o.KillOne? }

  /** The very last reads of the group of the captured browser do not say it is gone. */
  predicate StillOurs(log: seq<Obs>, pid: Pid, captured: Option<Generation>) {
    var n := |log|;
    || (n >= 1 && log[n - 1] == Probe(pid, OtherError))
    || (n >= 2 && captured.None? && log[n - 1] == Zombies(pid, false) && log[n - 2] == Probe(pid, Alive))
    || (n >= 3 && captured.Some? && log[n - 1] == Zombies(pid, false)
        && log[n - 2].StatRead? && log[n - 2].pid == pid && !Recycled(log[n - 2].stat, Stamp(pid, captured.value, pid))
        && log[n - 3] == Probe(pid, Alive))
  }

  /**
   What a kill that finds the group there does, from `a` on: it signals the group right after the reads
   that found it, and the leader right after that unless it is known to have terminated.
   */
  predicate Struck(log: seq<Obs>, a: nat, i: int, pid: Pid, captured: Option<Generation>, leaderTerminated: bool) {
    && a <= i < |log| && log[i] == Obs.Kill(pid) && StillOurs(log[a..i], pid, captured)
    && (leaderTerminated || (i + 1 < |log| && log[i + 1] == KillOne(pid)))
  }

  /** The group was signalled, and a read after the signals still found it there. */
  ghost predicate Survived(log: seq<Obs>, a: nat, pid: Pid, captured: Option<Generation>, leaderTerminated: bool) {
    exists i, b, e :: Struck(log, a, i, pid, captured, leaderTerminated) && i < b <= e <= |log| && StillOurs(log[b..e], pid, captured)
  }

  ghost predicate SparedAsGone(log: seq<Obs>, a: nat, pid: Pid, captured: Option<Generation>) {
    && (exists k :: a <= k && OursGoneAt(log, k, pid, captured))
    && forall k | a <= k < |log| :: !Signals(log[k])
  }

  class BrowserCore {
    const pid: Option<Pid>
    const leaderStart: Option<Generation>
    const forceKillAvailable: bool
    ghost var log: seq<Obs>
    ghost var closes: nat
    var clock: nat

    constructor (pid: Option<Pid>, leaderStart: Option<Generation>, available: bool)
      requires available ==> pid.Some?
      ensures this.pid == pid && this.leaderStart == leaderStart && forceKillAvailable == available && log == [] && closes == 0
    {
      this.pid, this.leaderStart, forceKillAvailable := pid, leaderStart, available;
      log, closes, clock := [], 0, 0;
    }

    method ProbeGroup(p: Pid) returns (r: Probed)
      modifies this`log
      ensures log == old(log) + [Probe(p, r)]
    {
      r := *;
      log := log + [Probe(p, r)];
    }

    method ReadProcStat(p: Pid) returns (r: Option<Stat>)
      modifies this`log
      ensures log == old(log) + [StatRead(p, r)]
    {
      r := *;
      log := log + [StatRead(p, r)];
    }

    method GroupIsAllZombies(p: Pid) returns (r: bool)
      modifies this`log
      ensures log == old(log) + [Zombies(p, r)]
    {
      r := *;
      log := log + [Zombies(p, r)];
    }

    /** `#ourGroupGone`: without a captured start time the recycle check is skipped. */
    method OurGroupGone(p: Pid) returns (gone: bool)
      modifies this`log
      ensures old(log) <= log
      ensures forall k | |old(log)| <= k < |log| :: !Signals(log[k])
      ensures gone <==> exists k :: |old(log)| <= k && OursGoneAt(log, k, p, leaderStart)
      ensures !gone ==> StillOurs(log[|old(log)|..], p, leaderStart)
    {
      ghost var n := |log|;
      var probed := ProbeGroup(p);
      if probed != Alive {
        assert log[n] == Probe(p, probed);
        assert probed == NoSuch || probed == Denied ==> OursGoneAt(log, n, p, leaderStart);
        return probed == NoSuch || probed == Denied;
      }
      if leaderStart.Some? {
        var stat := ReadProcStat(p);
        if Recycled(stat, Stamp(p, leaderStart.value, p)) {
          assert OursGoneAt(log, n, p, leaderStart);
          return true;
        }
      }
      var zombies := GroupIsAllZombies(p);
      if zombies {
        assert OursGoneAt(log, |log| - 1, p, leaderStart);
      } else {
        assert log[n..][0] == Probe(p, Alive) && log[n..][|log| - n - 1] == Zombies(p, false);
        assert leaderStart.Some? ==> |log| == n + 3 && log[n..][1] == log[n + 1];
      }
      gone := zombies;
    }

    /**
     `kill`. It resolves only on a read that says the group is gone, made after its last signal; it
     signals nothing when the first read already says so; and it signals the group at most once, then the
     leader alone, and only when that is known not to have terminated.
     */
    method Kill(confirmMs: nat, leaderTerminated: bool) returns (r: KillResult)
      modifies this`log, this`clock
      ensures old(log) <= log
      ensures r.Resolved? ==> forceKillAvailable && pid.Some? && exists k ::
                |old(log)| <= k && OursGoneAt(log, k, pid.value, leaderStart) && forall j | k < j < |log| :: !Signals(log[j])
      ensures !forceKillAvailable || pid.None? ==> r.Rejected? && log == old(log)
      ensures forall i, j | |old(log)| <= i < j < |log| :: !(log[i].Kill? && log[j].Kill?)
      ensures forall i | |old(log)| <= i < |log| && log[i].Kill? ::
                log[i] == Obs.Kill(pid.value) && forall k | |old(log)| <= k < i :: !OursGoneAt(log[..i], k, pid.value, leaderStart)
      ensures forall i | |old(log)| <= i < |log| && log[i].KillOne? ::
                !leaderTerminated && log[i] == KillOne(pid.value) && |old(log)| < i && log[i - 1] == Obs.Kill(pid.value)
      ensures forceKillAvailable && pid.Some? ==>
                || (r.Resolved? && SparedAsGone(log, |old(log)|, pid.value, leaderStart))
                || exists i :: Struck(log, |old(log)|, i, pid.value, leaderStart, leaderTerminated)
      ensures forceKillAvailable && pid.Some? && r.Rejected? ==>
                clock >= old(clock) + confirmMs && Survived(log, |old(log)|, pid.value, leaderStart, leaderTerminated)
    {
      if pid.None? || !forceKillAvailable { return Rejected; }
      var p := pid.value;
      var gone := OurGroupGone(p);
      if gone {
        ghost var k :| |old(log)| <= k && OursGoneAt(log, k, p, leaderStart);
        return Resolved;
      }
      ghost var before := log;
      log := log + [Obs.Kill(p)] + if leaderTerminated then [] else [KillOne(p)];
      ghost var signalled := |log|;
      r := ConfirmGroupGone(p, confirmMs);
      assert log[..|before|] == before && log[|before|] == Obs.Kill(p);
      assert forall i | |old(log)| <= i < |log| && Signals(log[i]) :: |before| <= i < signalled;
      assert log[|old(log)|..|before|] == before[|old(log)|..];
      assert Struck(log, |old(log)|, |before|, p, leaderStart, leaderTerminated);
    }

    /**
     Probe at once and then on every poll, until the group is gone or the deadline fires; it never signals.
     A poll due when the deadline fires may or may not come first.
     */
    method ConfirmGroupGone(p: Pid, deadlineMs: nat) returns (r: KillResult)
      modifies this`log, this`clock
      ensures old(log) <= log
      ensures forall k | |old(log)| <= k < |log| :: !Signals(log[k])
      ensures r.Resolved? ==> exists k :: |old(log)| <= k && OursGoneAt(log, k, p, leaderStart)
      ensures r.Rejected? ==> clock >= old(clock) + deadlineMs
      ensures r.Rejected? ==> exists e :: |old(log)| <= e <= |log| && StillOurs(log[|old(log)|..e], p, leaderStart)
    {
      var deadline := clock + deadlineMs;
      var gone := OurGroupGone(p);
      if gone {
        ghost var k :| |old(log)| <= k && OursGoneAt(log, k, p, leaderStart);
        return Resolved;
      }
      ghost var first := |log|;
      assert log[|old(log)|..first] == log[|old(log)|..];
      while clock < deadline
        invariant old(log) <= log && |old(log)| <= first <= |log| && StillOurs(log[|old(log)|..first], p, leaderStart)
        invariant forall k | |old(log)| <= k < |log| :: !Signals(log[k])
        decreases deadline - clock
      {
        var late: int := *;
        clock := clock + SWEEP_POLL_MS + if late > 0 then late else 0;
        var fired: bool := *;
        if clock >= deadline && fired { return Rejected; }
        ghost var n, before := |log|, log;
        gone := OurGroupGone(p);
        assert log[|old(log)|..first] == before[|old(log)|..first];
        if gone {
          ghost var k :| n <= k && OursGoneAt(log, k, p, leaderStart);
          return Resolved;
        }
      }
      r := Rejected;
    }
  }

  // -- activity -------------------------------------------------------------------------------------

  datatype Verb = Enters(at: int) | Leaves(at: int)

  /** Verbs in flight after a history of entries and exits; an unmatched exit is not counted. */
  function InFlight(h: seq<Verb>): nat {
    if h == [] then 0
    else
      var before := InFlight(h[..|h| - 1]);
      if h[|h| - 1].Enters? then before + 1 else if before == 0 then 0 else before - 1
  }

  /** When the current burst began: the last entry that found nothing in flight. */
  function BurstSince(h: seq<Verb>): Option<int> {
    if h == [] || InFlight(h) == 0 then None
    else if h[|h| - 1].Enters? && InFlight(h[..|h| - 1]) == 0 then Some(h[|h| - 1].at)
    else BurstSince(h[..|h| - 1])
  }

  function LastActivity(created: int, h: seq<Verb>): int { if h == [] then created else h[|h| - 1].at }

  /** While a verb is in flight the burst began at some entry, and something has been in flight ever since. */
  lemma {:induction false} BurstIsUnbroken(h: seq<Verb>)
    ensures BurstSince(h).Some? <==> InFlight(h) > 0
    ensures InFlight(h) > 0 ==> exists k :: BurstAt(h, k)
    decreases |h|
  {
    if h != [] && InFlight(h) > 0 {
      var before := h[..|h| - 1];
      BurstIsUnbroken(before);
      if h[|h| - 1].Enters? && InFlight(before) == 0 {
        assert h[..|h|] == h;
        assert BurstAt(h, |h| - 1);
      } else {
        var k :| BurstAt(before, k);
        forall j | k < j <= |h| ensures InFlight(h[..j]) > 0 {
          if j < |h| { assert h[..j] == before[..j]; } else { assert h[..j] == h; }
        }
        assert h[..k] == before[..k];
        assert BurstAt(h, k);
      }
    }
  }

  /** The burst in flight began with entry `k`, and every later prefix has a verb in flight. */
  ghost predicate BurstAt(h: seq<Verb>, k: int) {
    && 0 <= k < |h| && h[k].Enters? && InFlight(h[..k]) == 0
    && BurstSince(h) == Some(h[k].at)
    && forall j | k < j <= |h| :: InFlight(h[..j]) > 0
  }

  // -- the session ----------------------------------------------------------------------------------

  datatype CloseOutcome = ClosedCleanly | CloseFailed | GraceExpired

  class Session {
    const core: BrowserCore
    const consumerId: Option<Consumer>
    const createdAt: int
    var closed: bool
    var reconfirming: bool
    var inFlight: int
    var inFlightSince: Option<int>
    var lastActivityAt: int
    ghost var verbs: seq<Verb>

    ghost predicate Valid()
      reads this
    {
      inFlight == InFlight(verbs) && inFlightSince == BurstSince(verbs) && lastActivityAt == LastActivity(createdAt, verbs)
    }

    constructor (core: BrowserCore, consumerId: Option<Consumer>, now: int)
      ensures Valid() && !closed && !reconfirming && this.core == core && this.consumerId == consumerId && createdAt == now && verbs == []
    {
      this.core, this.consumerId, createdAt := core, consumerId, now;
      closed, reconfirming, inFlight, inFlightSince, lastActivityAt := false, false, 0, None, now;
      verbs := [];
    }

    method BeginActivity(now: int)
      requires Valid()
      modifies this`inFlight, this`inFlightSince, this`lastActivityAt, this`verbs
      ensures Valid() && verbs == old(verbs) + [Enters(now)]
    {
      verbs := verbs + [Enters(now)];
      assert verbs[..|verbs| - 1] == old(verbs);
      BurstIsUnbroken(old(verbs));
      if inFlight == 0 { inFlightSince := Some(now); }
      inFlight := inFlight + 1;
      lastActivityAt := now;
    }

    method EndActivity(now: int)
      requires Valid()
      modifies this`inFlight, this`inFlightSince, this`lastActivityAt, this`verbs
      ensures Valid() && verbs == old(verbs) + [Leaves(now)]
    {
      verbs := verbs + [Leaves(now)];
      assert verbs[..|verbs| - 1] == old(verbs);
      inFlight := if inFlight - 1 > 0 then inFlight - 1 else 0;
      if inFlight == 0 { inFlightSince := None; }
      lastActivityAt := now;
    }

    /**
     The reaper's choice: an idle consumer session past its time to live, or a verb wedged past the bound,
     and never a session the manager is tearing down or waits to reconfirm.
     */
    method Stale(closing: bool, unconfirmed: bool, now: int, ttlMs: int, maxInFlightMs: int) returns (stale: bool)
      requires Valid()
      ensures stale ==> !closing && !unconfirmed
      ensures !closing && !unconfirmed ==> (stale <==>
        if InFlight(verbs) == 0 then consumerId.Some? && now - LastActivity(createdAt, verbs) > ttlMs
        else exists k :: BurstAt(verbs, k) && now - verbs[k].at > maxInFlightMs)
    {
      if closing || unconfirmed { return false; }
      BurstIsUnbroken(verbs);
      if inFlight == 0 { return consumerId.Some? && now - lastActivityAt > ttlMs; }
      var inFlightMs := if inFlightSince.None? then 0 else now - inFlightSince.value;
      stale := inFlightMs > maxInFlightMs;
    }

    /**
     `teardown`: closed only by a group that read as gone, or, where force-kill is unavailable, by a
     clean close. A teardown that does not resolve leaves the session open.
     */
    method Teardown(outcome: CloseOutcome, killConfirmMs: nat, leaderTerminated: bool) returns (r: KillResult)
      modifies this`closed, core`closes, core`log, core`clock
      ensures closed <==> r.Resolved?
      ensures old(closed) ==> r.Resolved? && core.closes == old(core.closes) && core.log == old(core.log)
      ensures !old(closed) ==> core.closes == old(core.closes) + 1
      ensures !old(closed) && r.Resolved? ==>
        || (!core.forceKillAvailable && outcome == ClosedCleanly)
        || (core.pid.Some? && exists k :: |old(core.log)| <= k && OursGoneAt(core.log, k, core.pid.value, core.leaderStart))
      ensures !old(closed) && r.Rejected? ==>
        if core.forceKillAvailable && core.pid.Some?
        then core.clock >= old(core.clock) + killConfirmMs && Survived(core.log, |old(core.log)|, core.pid.value, core.leaderStart, leaderTerminated)
        else outcome != ClosedCleanly || core.forceKillAvailable
      ensures verbs == old(verbs)
    {
      if closed { return Resolved; }
      core.closes := core.closes + 1;
      if core.forceKillAvailable || outcome != ClosedCleanly {
        r := core.Kill(killConfirmMs, leaderTerminated);
        if r.Rejected? { return Rejected; }
      }
      closed := true;
      r := Resolved;
    }

    /** Single-flight: a kill starts exactly when the session is open and no other reconfirm runs. */
    method EnterReconfirm() returns (starts: bool)
      modifies this`reconfirming
      ensures starts <==> !closed && !old(reconfirming)
      ensures reconfirming <==> old(reconfirming) || starts
    {
      if closed || reconfirming { return false; }
      reconfirming := true;
      starts := true;
    }

    /**
     The one running `reconfirm`: kill-only, so a close that a dead transport resolves at once is never
     taken for a death. The latch clears however it ends.
     */
    method Reconfirm(killConfirmMs: nat, leaderTerminated: bool) returns (r: KillResult)
      requires reconfirming
      modifies this`closed, this`reconfirming, core`log, core`clock
      ensures !reconfirming && (closed <==> old(closed) || r.Resolved?)
      ensures core.closes == old(core.closes)
      ensures r.Resolved? ==>
        core.pid.Some? && exists k :: |old(core.log)| <= k && OursGoneAt(core.log, k, core.pid.value, core.leaderStart)
      ensures r.Rejected? && core.forceKillAvailable && core.pid.Some? ==>
        core.clock >= old(core.clock) + killConfirmMs && Survived(core.log, |old(core.log)|, core.pid.value, core.leaderStart, leaderTerminated)
    {
      r := core.Kill(killConfirmMs, leaderTerminated);
      if r.Resolved? { closed := true; }
      reconfirming := false;
    }
  }
}
