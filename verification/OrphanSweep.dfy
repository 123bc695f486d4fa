/**
 `sweepOrphanProcesses` of `src/gateway/orphan-sweep.ts`: kill and confirm whatever a wedged launch left
 under its profile directory.

 The process table is an environment that may change between any two reads, so every read below answers
 anything at all; `log` is the history of what was read and signalled, and the contracts speak of it.
 The clock may advance by any amount at any read, and a sleep lasts at least as long as asked.
 */
module OrphanSweep {
  import opened Common

  type Pid = nat
  type Generation = nat

  datatype Stat = Stat(pgrp: Pid, start: Generation)

  /** One stamped process group: its representative, and that process's start time. */
  datatype Stamp = Stamp(pid: Pid, start: Generation, pgrp: Pid)

  /** What `kill(-pgrp, 0)` says; `OtherError` is any errno but ESRCH and EPERM. */
  datatype Probed = Alive | NoSuch | Denied | OtherError

  datatype Root = Readable | Absent | Failing

  datatype Obs =
    | Scan(pids: seq<Pid>)
    | ScanFailed
    | StatRead(pid: Pid, stat: Option<Stat>)
    | Belongs(pid: Pid, ours: bool)
    | Probe(pgrp: Pid, probed: Probed)
    | Zombies(pgrp: Pid, all: bool)
    | Kill(pgrp: Pid)
    | KillOne(pid: Pid)

  datatype Outcome = Confirmed | Unconfirmed(stamps: seq<Stamp>) | Unsupported | Throws

  const SWEEP_POLL_MS: nat := 100

  // -- the ledger: one stamp per group, in insertion order -----------------------------------------

  function Groups(ledger: seq<Stamp>): set<Pid> { set i | 0 <= i < |ledger| :: ledger[i].pgrp }

  function Find(ledger: seq<Stamp>, pgrp: Pid): (r: Option<nat>)
    ensures r.Some? ==> r.value < |ledger| && ledger[r.value].pgrp == pgrp
    ensures r.None? ==> forall i | 0 <= i < |ledger| :: ledger[i].pgrp != pgrp
  {
    if ledger == [] then None
    else if ledger[0].pgrp == pgrp then Some(0)
    else
      var r := Find(ledger[1..], pgrp);
      if r.Some? then Some(r.value + 1) else None
  }

  /** `mergeStamp`: the first representative of a group stays, unless the leader itself turns up. */
  function Merge(ledger: seq<Stamp>, s: Stamp): seq<Stamp> {
    var i := Find(ledger, s.pgrp);
    if i.None? then ledger + [s]
    else if s.pid == s.pgrp then ledger[i.value := s]
    else ledger
  }

  lemma MergeKeepsGroups(ledger: seq<Stamp>, s: Stamp)
    ensures Groups(Merge(ledger, s)) == Groups(ledger) + {s.pgrp}
    ensures forall x | x in Merge(ledger, s) :: x == s || x in ledger
    ensures |ledger| <= |Merge(ledger, s)|
  {
    var m := Merge(ledger, s);
    var i := Find(ledger, s.pgrp);
    if i.None? {
      forall g ensures g in Groups(m) <==> g in Groups(ledger) || g == s.pgrp {
        if g in Groups(ledger) {
          var k :| 0 <= k < |ledger| && ledger[k].pgrp == g;
          assert m[k].pgrp == g;
        }
        assert m[|ledger|].pgrp == s.pgrp;
      }
    } else {
      assert s.pgrp in Groups(ledger);
      forall g ensures g in Groups(m) <==> g in Groups(ledger) {
        if g in Groups(ledger) {
          var k :| 0 <= k < |ledger| && ledger[k].pgrp == g;
          assert m[k].pgrp == g;
        }
        if g in Groups(m) {
          var k :| 0 <= k < |m| && m[k].pgrp == g;
          assert ledger[k].pgrp == g;
        }
      }
    }
  }

  ghost predicate OnePerGroup(ledger: seq<Stamp>) {
    forall i, j | 0 <= i < j < |ledger| :: ledger[i].pgrp != ledger[j].pgrp
  }

  /** Leader-preferred, first come: other groups stay, and a group's stamp is replaced by its leader's alone. */
  lemma MergeIsExact(ledger: seq<Stamp>, s: Stamp)
    requires OnePerGroup(ledger)
    ensures OnePerGroup(Merge(ledger, s))
    ensures forall x :: x in Merge(ledger, s) <==>
      if x.pgrp == s.pgrp && (s.pid == s.pgrp || s.pgrp !in Groups(ledger)) then x == s else x in ledger
  {
    var m := Merge(ledger, s);
    var i := Find(ledger, s.pgrp);
    if i.None? {
      assert forall k | 0 <= k < |ledger| :: m[k] == ledger[k];
      assert m[|ledger|] == s;
      assert s.pgrp !in Groups(ledger);
    } else {
      assert ledger[i.value].pgrp in Groups(ledger);
      forall x ensures x in ledger && x.pgrp != s.pgrp <==> x in m && x.pgrp != s.pgrp {
        if x in ledger && x.pgrp != s.pgrp {
          var k :| 0 <= k < |ledger| && ledger[k] == x;
          assert m[k] == x;
        }
      }
      if s.pid == s.pgrp { assert m[i.value] == s; }
    }
  }

  // -- reading the history --------------------------------------------------------------------------

  /** A process was read and then seen, again, to belong to the launch. */
  predicate StampsAt(log: seq<Obs>, k: int) {
    && 0 <= k && k + 1 < |log|
    && log[k].StatRead? && log[k].stat.Some?
    && log[k + 1] == Belongs(log[k].pid, true)
  }

  /** Every group some process of the launch was seen in. */
  ghost function Observed(log: seq<Obs>): set<Pid> {
    set k | 0 <= k < |log| && StampsAt(log, k) :: log[k].stat.value.pgrp
  }

  /** `s` was stamped from a process of the launch read at or after `m`. */
  ghost predicate Seen(log: seq<Obs>, m: nat, s: Stamp) {
    exists k :: m <= k && StampsAt(log, k) && log[k].pid == s.pid && log[k].stat == Some(Stat(s.pgrp, s.start))
  }

  /** `s` is the leader of a group a member of which was seen, and was still there after the leader was read. */
  ghost predicate Adopted(log: seq<Obs>, m: nat, s: Stamp) {
    s.pid == s.pgrp &&
    exists j, member: Stamp ::
      && m <= j && j + 1 < |log|
      && log[j] == StatRead(s.pgrp, Some(Stat(s.pgrp, s.start)))
      && member.pgrp == s.pgrp
      && log[j + 1] == StatRead(member.pid, Some(Stat(member.pgrp, member.start)))
      && Seen(log, m, member)
  }

  /** A stamp is owed from an earlier attempt, or was earned in this one. */
  ghost predicate Earned(prior: seq<Stamp>, log: seq<Obs>, s: Stamp) {
    s in prior || Seen(log, 0, s) || Adopted(log, 0, s)
  }

  /** The read at `k`, with the one after it, says the group of `s` is gone, recycled or all zombies. */
  predicate GoneAt(log: seq<Obs>, k: int, s: Stamp) {
    && 0 <= k < |log|
    && (|| log[k] == Probe(s.pgrp, NoSuch)
        || log[k] == Probe(s.pgrp, Denied)
        || log[k] == Zombies(s.pgrp, true)
        || (k + 1 < |log| && log[k] == Probe(s.pgrp, Alive) && s.pid == s.pgrp
            && log[k + 1].StatRead? && log[k + 1].pid == s.pgrp && Recycled(log[k + 1].stat, s)))
  }

  ghost predicate GoneSince(log: seq<Obs>, m: nat, s: Stamp) {
    exists k :: m <= k && GoneAt(log, k, s)
  }

  predicate Recycled(stat: Option<Stat>, s: Stamp) {
    stat.Some? && stat.value.pgrp == s.pgrp && stat.value.start != s.start
  }

  /** The very last reads do not say that the group of `s` is gone, and for a leader's stamp do not say it was recycled. */
  predicate StillThere(log: seq<Obs>, s: Stamp) {
    var n := |log|;
    || (n >= 1 && log[n - 1] == Probe(s.pgrp, OtherError))
    || (n >= 2 && s.pid != s.pgrp && log[n - 1] == Zombies(s.pgrp, false) && log[n - 2] == Probe(s.pgrp, Alive))
    || (n >= 3 && s.pid == s.pgrp && log[n - 1] == Zombies(s.pgrp, false)
        && log[n - 2].StatRead? && log[n - 2].pid == s.pgrp && !Recycled(log[n - 2].stat, s)
        && log[n - 3] == Probe(s.pgrp, Alive))
  }

  /** The pass begins at its scan, the last one in the history. */
  ghost predicate PassFrom(log: seq<Obs>, m: nat) {
    && m < |log| && log[m].Scan?
    && forall k | m < k < |log| :: !log[k].Scan? && !log[k].ScanFailed?
  }

  /**
   A group may be signalled only right after its representative was re-read at its stamped generation, or
   when it is an owed leader-stamped group that its last reads do not prove gone.
   */
  ghost predicate MaySignal(prior: seq<Stamp>, log: seq<Obs>, pgrp: Pid) {
    || (exists m: nat, s: Stamp ::
          && s.pgrp == pgrp && |log| > 0 && log[|log| - 1] == StatRead(s.pid, Some(Stat(s.pgrp, s.start)))
          && PassFrom(log, m)
          && (Seen(log[..|log| - 1], m, s) || Adopted(log[..|log| - 1], m, s)))
    || (exists s: Stamp :: s.pgrp == pgrp && s.pid == pgrp && Earned(prior, log, s) && StillThere(log, s))
  }

  ghost predicate Justified(prior: seq<Stamp>, log: seq<Obs>) {
    forall i | 0 <= i < |log| && log[i].Kill? :: MaySignal(prior, log[..i], log[i].pgrp)
  }

  /** The process was dismissed: unreadable, or no longer the launch's when looked at again. */
  predicate DismissedAt(log: seq<Obs>, k: int, pid: Pid) {
    && 0 <= k < |log|
    && (|| log[k] == StatRead(pid, None)
        || (k + 1 < |log| && log[k].StatRead? && log[k].pid == pid && log[k + 1] == Belongs(pid, false)))
  }

  ghost predicate Dismissed(log: seq<Obs>, m: nat, pid: Pid) {
    exists k :: m < k && DismissedAt(log, k, pid)
  }

  /** The last scan stamped nobody: every process it found was dismissed. */
  ghost predicate FoundNothing(log: seq<Obs>, m: nat) {
    && PassFrom(log, m)
    && (forall k | m <= k :: !StampsAt(log, k))
    && (forall pid | pid in log[m].pids :: Dismissed(log, m, pid))
  }

  /** Every group some process of the launch was seen in since `m`. */
  ghost function ObservedFrom(log: seq<Obs>, m: nat): set<Pid> {
    set k | m <= k < |log| && StampsAt(log, k) :: log[k].stat.value.pgrp
  }

  ghost predicate StampedIn(log: seq<Obs>, m: nat, pid: Pid) {
    exists k :: m < k && StampsAt(log, k) && log[k].pid == pid
  }

  /** The leader was looked for, and not adopted: unreadable, elsewhere, or its member no longer as stamped. */
  predicate LeaderlessAt(log: seq<Obs>, k: int, s: Stamp) {
    && 0 <= k < |log| && log[k].StatRead? && log[k].pid == s.pgrp
    && (|| log[k].stat.None? || log[k].stat.value.pgrp != s.pgrp
        || (k + 1 < |log| && log[k + 1].StatRead? && log[k + 1].pid == s.pid && log[k + 1].stat != Some(Stat(s.pgrp, s.start))))
  }

  ghost predicate Leaderless(log: seq<Obs>, m: nat, s: Stamp) { exists k :: m < k && LeaderlessAt(log, k, s) }

  /**
   The history `tail` re-reads each representative once, in order, and where it reads back as stamped the
   very next entry is the signal to its group.
   */
  predicate SignalsEach(reps: seq<Stamp>, tail: seq<Obs>)
    decreases |reps|
  {
    if reps == [] then tail == []
    else
      && tail != [] && tail[0].StatRead? && tail[0].pid == reps[0].pid
      && if tail[0].stat == Some(Stat(reps[0].pgrp, reps[0].start))
         then |tail| > 1 && tail[1] == Kill(reps[0].pgrp) && SignalsEach(reps[1..], tail[2..])
         else SignalsEach(reps[1..], tail[1..])
  }

  /**
   The pass that began with the scan at `m` was carried through: every process the scan found was stamped
   or dismissed, every group seen has one representative, its leader wherever that could be adopted, and
   from `n` to `e` every representative was re-read and, if still as stamped, signalled.
   */
  ghost predicate Carried(log: seq<Obs>, m: nat, n: nat, e: nat, reps: seq<Stamp>) {
    && m < n <= e <= |log| && log[m].Scan?
    && (forall pid | pid in log[m].pids :: Dismissed(log[..n], m, pid) || StampedIn(log[..n], m, pid))
    && OnePerGroup(reps) && Groups(reps) == ObservedFrom(log[..n], m)
    && (forall s | s in reps :: (Seen(log[..n], m, s) || Adopted(log[..n], m, s)) && (s.pid == s.pgrp || Leaderless(log[..n], m, s)))
    && SignalsEach(reps, log[n..e])
  }

  ghost predicate PassDone(log: seq<Obs>, m: nat) {
    exists n: nat, e: nat, reps: seq<Stamp> :: Carried(log, m, n, e, reps)
  }

  /** A gateway-side failure ended the pass early. */
  ghost predicate CutShort(log: seq<Obs>, m: nat) {
    exists k :: m < k < |log| && log[k].ScanFailed? && forall j | m < j < k :: !log[j].Scan?
  }

  /** Every scan of the attempt was carried through, unless a failure cut it short. */
  ghost predicate EveryPass(log: seq<Obs>) {
    forall m | 0 <= m < |log| && log[m].Scan? :: PassDone(log, m) || CutShort(log, m)
  }

  /** An owed leader-stamped group was answered between `a` and `b`: it read as gone, or was signalled right after it did not. */
  ghost predicate Answered(log: seq<Obs>, a: nat, b: nat, s: Stamp) {
    && a <= b <= |log|
    && exists k :: a <= k < b && (GoneAt(log[..b], k, s) || (log[k] == Kill(s.pgrp) && StillThere(log[a..k], s)))
  }

  ghost predicate OwedAnswered(log: seq<Obs>, a: nat, b: nat, ledger: seq<Stamp>) {
    a <= b <= |log| && forall s | s in ledger && s.pid == s.pgrp :: Answered(log, a, b, s)
  }

  /** A group of the ledger was read since `m` and not found gone. */
  ghost predicate StillOwed(log: seq<Obs>, m: nat, s: Stamp) {
    exists e :: m <= e <= |log| && StillThere(log[m..e], s)
  }

  /** The pass since `m` saw somebody, or one of the owed groups read as still there. */
  ghost predicate LastPassBlocked(log: seq<Obs>, m: nat, owed: seq<Stamp>) {
    ObservedFrom(log, m) != {} || exists s :: s in owed && StillOwed(log, m, s)
  }

  ghost predicate AnsweredIn(prior: seq<Stamp>, log: seq<Obs>, a: nat, b: nat, ledger: seq<Stamp>) {
    a <= b <= |log| && LedgerOk(prior, log[..a], ledger) && OwedAnswered(log, a, b, ledger)
  }

  /** Unless nothing was ever owed or seen, or the first pass failed, the owed leaders were answered once. */
  ghost predicate OwedOnce(prior: seq<Stamp>, log: seq<Obs>) {
    || Groups(prior) + Observed(log) == {}
    || (exists k :: 0 <= k < |log| && log[k].ScanFailed? && forall i, j | 0 <= i < j < k :: !(log[i].Scan? && log[j].Scan?))
    || (exists a: nat, b: nat, ledger: seq<Stamp> :: AnsweredIn(prior, log, a, b, ledger))
  }

  /** Every group owed from before, or ever seen in this attempt, read as gone at or after `m`. */
  ghost predicate AllGoneSince(prior: seq<Stamp>, log: seq<Obs>, m: nat) {
    forall g | g in Groups(prior) + Observed(log) ::
      exists s: Stamp :: s.pgrp == g && Earned(prior, log, s) && GoneSince(log, m, s)
  }

  /** The group of `s` is stamped by its leader. */
  ghost predicate Led(ledger: seq<Stamp>, pgrp: Pid) { exists x :: x in ledger && x.pgrp == pgrp && x.pid == pgrp }

  /**
   The durable ledger: one stamp for each group owed before or seen since, each earned, and a leader's
   wherever the leader itself was owed or seen.
   */
  ghost predicate LedgerOk(prior: seq<Stamp>, log: seq<Obs>, ledger: seq<Stamp>) {
    && Groups(ledger) == Groups(prior) + Observed(log) && OnePerGroup(ledger)
    && (forall s | s in ledger :: Earned(prior, log, s))
    && (forall s: Stamp | (s in prior || Seen(log, 0, s)) && s.pid == s.pgrp :: Led(ledger, s.pgrp))
  }

  // -- appending to the history ---------------------------------------------------------------------

  lemma StampsAppend(log: seq<Obs>, e: Obs, k: int)
    ensures StampsAt(log, k) ==> StampsAt(log + [e], k)
    ensures StampsAt(log + [e], k) ==> StampsAt(log, k) || (k == |log| - 1 && e.Belongs? && e.ours && log[k].StatRead? && log[k].stat.Some? && log[k].pid == e.pid)
  {
  }

  lemma EvidenceGrows(prior: seq<Stamp>, log: seq<Obs>, log': seq<Obs>, m: nat, s: Stamp)
    requires log <= log'
    ensures Seen(log, m, s) ==> Seen(log', m, s) && Seen(log', 0, s)
    ensures Adopted(log, m, s) ==> Adopted(log', m, s) && Adopted(log', 0, s)
    ensures Earned(prior, log, s) ==> Earned(prior, log', s)
    ensures GoneSince(log, m, s) ==> GoneSince(log', m, s)
  {
    SeenGrows(log, log', m, s);
    SeenGrows(log, log', 0, s);
    AdoptedGrows(log, log', m, s);
    AdoptedGrows(log, log', 0, s);
    if GoneSince(log, m, s) {
      var k :| m <= k && GoneAt(log, k, s);
      assert GoneAt(log', k, s);
    }
  }

  lemma SeenGrows(log: seq<Obs>, log': seq<Obs>, m: nat, s: Stamp)
    requires log <= log'
    ensures Seen(log, m, s) ==> Seen(log', m, s) && Seen(log', 0, s)
  {
    if Seen(log, m, s) {
      var k :| m <= k && StampsAt(log, k) && log[k].pid == s.pid && log[k].stat == Some(Stat(s.pgrp, s.start));
      assert StampsAt(log', k);
    }
  }

  lemma AdoptedGrows(log: seq<Obs>, log': seq<Obs>, m: nat, s: Stamp)
    requires log <= log'
    ensures Adopted(log, m, s) ==> Adopted(log', m, s) && Adopted(log', 0, s)
  {
    if Adopted(log, m, s) {
      var j, member: Stamp :|
        && m <= j && j + 1 < |log|
        && log[j] == StatRead(s.pgrp, Some(Stat(s.pgrp, s.start)))
        && member.pgrp == s.pgrp
        && log[j + 1] == StatRead(member.pid, Some(Stat(member.pgrp, member.start)))
        && Seen(log, m, member);
      SeenGrows(log, log', m, member);
      assert log'[j] == log[j] && log'[j + 1] == log[j + 1];
    }
  }

  /** An entry that cannot complete a stamping changes what was observed not at all. */
  lemma ObservedAppend(log: seq<Obs>, e: Obs)
    ensures !(e.Belongs? && e.ours) ==> Observed(log + [e]) == Observed(log)
    ensures |log| > 0 && log[|log| - 1].StatRead? && log[|log| - 1].stat.Some? && e == Belongs(log[|log| - 1].pid, true) ==>
      Observed(log + [e]) == Observed(log) + {log[|log| - 1].stat.value.pgrp}
  {
    forall k ensures StampsAt(log, k) ==> StampsAt(log + [e], k) && (log + [e])[k] == log[k] {
      StampsAppend(log, e, k);
    }
    forall k ensures StampsAt(log + [e], k) ==> StampsAt(log, k) || k == |log| - 1 {
      StampsAppend(log, e, k);
    }
    if |log| > 0 && log[|log| - 1].StatRead? && log[|log| - 1].stat.Some? && e == Belongs(log[|log| - 1].pid, true) {
      assert StampsAt(log + [e], |log| - 1);
    }
  }

  lemma LedgerAppend(prior: seq<Stamp>, log: seq<Obs>, e: Obs, ledger: seq<Stamp>)
    requires LedgerOk(prior, log, ledger) && !(e.Belongs? && e.ours)
    ensures LedgerOk(prior, log + [e], ledger)
  {
    hide Earned, Led, Seen;
    ObservedAppend(log, e);
    forall s | s in ledger ensures Earned(prior, log + [e], s) {
      EvidenceGrows(prior, log, log + [e], 0, s);
    }
    forall s: Stamp | (s in prior || Seen(log + [e], 0, s)) && s.pid == s.pgrp ensures Led(ledger, s.pgrp) {
      if Seen(log + [e], 0, s) { SeenAppend(log, e, 0, s); }
    }
  }

  lemma SeenAppend(log: seq<Obs>, e: Obs, m: nat, s: Stamp)
    requires Seen(log + [e], m, s)
    ensures Seen(log, m, s) || (e == Belongs(s.pid, true) && |log| > 0 && log[|log| - 1] == StatRead(s.pid, Some(Stat(s.pgrp, s.start))))
  {
    var k :| m <= k && StampsAt(log + [e], k) && (log + [e])[k].pid == s.pid && (log + [e])[k].stat == Some(Stat(s.pgrp, s.start));
    StampsAppend(log, e, k);
    if StampsAt(log, k) { assert log[k] == (log + [e])[k]; }
  }

  /** A merge never takes a group's leader away. */
  lemma MergeLeads(ledger: seq<Stamp>, s: Stamp, g: Pid)
    requires OnePerGroup(ledger)
    ensures Led(ledger, g) ==> Led(Merge(ledger, s), g)
    ensures s.pid == s.pgrp ==> Led(Merge(ledger, s), s.pgrp)
  {
    MergeIsExact(ledger, s);
    if s.pid == s.pgrp { assert s in Merge(ledger, s); }
    if Led(ledger, g) {
      var x :| x in ledger && x.pgrp == g && x.pid == g;
      if s.pgrp == g {
        assert x.pgrp in Groups(ledger) by { var i :| 0 <= i < |ledger| && ledger[i] == x; assert ledger[i].pgrp == x.pgrp; }
      }
      assert x in Merge(ledger, s) || s in Merge(ledger, s);
    }
  }

  lemma JustifiedAppend(prior: seq<Stamp>, log: seq<Obs>, e: Obs)
    requires Justified(prior, log) && (e.Kill? ==> MaySignal(prior, log, e.pgrp))
    ensures Justified(prior, log + [e])
  {
    hide MaySignal;
    var log' := log + [e];
    forall i | 0 <= i < |log'| && log'[i].Kill? ensures MaySignal(prior, log'[..i], log'[i].pgrp) {
      if i < |log| {
        assert log'[..i] == log[..i];
      } else {
        assert log'[..i] == log;
      }
    }
  }

  lemma DismissedGrows(log: seq<Obs>, log': seq<Obs>, m: nat, pid: Pid)
    requires log <= log'
    ensures Dismissed(log, m, pid) ==> Dismissed(log', m, pid)
  {
    if Dismissed(log, m, pid) {
      var k :| m < k && DismissedAt(log, k, pid);
      assert DismissedAt(log', k, pid);
    }
  }

  lemma LeaderlessGrows(log: seq<Obs>, log': seq<Obs>, m: nat, s: Stamp)
    requires log <= log'
    ensures Leaderless(log, m, s) ==> Leaderless(log', m, s)
  {
    if Leaderless(log, m, s) {
      var k :| m < k && LeaderlessAt(log, k, s);
      assert LeaderlessAt(log', k, s);
    }
  }

  /** A suffix of the history that says a group is still there says so as the end of the whole. */
  lemma StillThereLonger(log: seq<Obs>, m: nat, n: nat, s: Stamp)
    requires m <= n <= |log| && StillThere(log[n..], s)
    ensures StillThere(log[m..], s)
  {
    var a, b := log[n..], log[m..];
    assert |a| >= 1 ==> a[|a| - 1] == b[|b| - 1];
    assert |a| >= 2 ==> a[|a| - 2] == b[|b| - 2];
    assert |a| >= 3 ==> a[|a| - 3] == b[|b| - 3];
  }

  lemma StillOwedFrom(log: seq<Obs>, m: nat, n: nat, s: Stamp)
    requires m <= n <= |log| && StillThere(log[n..], s)
    ensures StillOwed(log, m, s)
  {
    StillThereLonger(log, m, n, s);
    assert log[m..|log|] == log[m..];
  }

  lemma OwedMaySignal(prior: seq<Stamp>, before: seq<Obs>, log: seq<Obs>, ledger: seq<Stamp>, rep: Stamp)
    requires LedgerOk(prior, before, ledger) && rep in ledger && rep.pid == rep.pgrp && before <= log && StillThere(log, rep)
    ensures MaySignal(prior, log, rep.pgrp)
  {
    hide Seen, Adopted, StillThere;
    EvidenceGrows(prior, before, log, 0, rep);
  }

  lemma SignalAnswers(before: seq<Obs>, asked: seq<Obs>, log: seq<Obs>, a: nat, rep: Stamp)
    requires a <= |before| && before <= asked && StillThere(asked[|before|..], rep) && log == asked + [Kill(rep.pgrp)]
    ensures Answered(log, a, |log|, rep)
  {
    StillThereLonger(asked, a, |before|, rep);
    assert log[a..|asked|] == asked[a..];
    assert log[|asked|] == Kill(rep.pgrp);
  }

  lemma GoneAnswers(before: seq<Obs>, log: seq<Obs>, a: nat, rep: Stamp)
    requires a <= |before| <= |log| && GoneSince(log, |before|, rep)
    ensures Answered(log, a, |log|, rep)
  {
    var k :| |before| <= k && GoneAt(log, k, rep);
    assert log[..|log|] == log;
  }

  lemma AnsweredGrows(before: seq<Obs>, log: seq<Obs>, a: nat, s: Stamp)
    requires before <= log
    ensures Answered(before, a, |before|, s) ==> Answered(log, a, |log|, s)
  {
    if Answered(before, a, |before|, s) {
      var k :| a <= k < |before| && (GoneAt(before[..|before|], k, s) || (before[k] == Kill(s.pgrp) && StillThere(before[a..k], s)));
      assert before[..|before|] == before && log[..|log|] == log;
      if GoneAt(before, k, s) { assert GoneAt(log, k, s); } else { assert log[a..k] == before[a..k]; }
    }
  }

  /** A representative that reads back as it was stamped may be signalled. */
  lemma ReadBack(prior: seq<Stamp>, before: seq<Obs>, log: seq<Obs>, m: nat, observed: seq<Stamp>, rep: Stamp)
    requires PassOk(before, m, observed) && PassOk(log, m, observed) && rep in observed
    requires log == before + [StatRead(rep.pid, Some(Stat(rep.pgrp, rep.start)))]
    ensures MaySignal(prior, log, rep.pgrp)
  {
    hide Seen, Adopted;
    assert log[..|log| - 1] == before;
  }

  lemma {:induction false} SignalsAppend(reps: seq<Stamp>, tail: seq<Obs>, rep: Stamp, more: seq<Obs>)
    requires SignalsEach(reps, tail) && SignalsEach([rep], more)
    ensures SignalsEach(reps + [rep], tail + more)
    decreases |reps|
  {
    if reps == [] {
      assert reps + [rep] == [rep] && tail + more == more;
    } else {
      var d := if tail[0].stat == Some(Stat(reps[0].pgrp, reps[0].start)) then 2 else 1;
      SignalsAppend(reps[1..], tail[d..], rep, more);
      assert (reps + [rep])[1..] == reps[1..] + [rep];
      assert (tail + more)[d..] == tail[d..] + more;
    }
  }

  lemma SignalsOne(rep: Stamp, more: seq<Obs>)
    requires more != [] && more[0].StatRead? && more[0].pid == rep.pid
    requires if more[0].stat == Some(Stat(rep.pgrp, rep.start)) then |more| == 2 && more[1] == Kill(rep.pgrp) else |more| == 1
    ensures SignalsEach([rep], more)
  {
    assert [rep][1..] == [];
    assert more[|more|..] == [];
  }

  lemma SignalsOneMore(observed: seq<Stamp>, i: nat, tail: seq<Obs>, tail': seq<Obs>)
    requires i < |observed| && SignalsEach(observed[..i], tail)
    requires |tail| < |tail'| && tail'[..|tail|] == tail && tail'[|tail|].StatRead? && tail'[|tail|].pid == observed[i].pid
    requires if tail'[|tail|].stat == Some(Stat(observed[i].pgrp, observed[i].start))
             then |tail'| == |tail| + 2 && tail'[|tail| + 1] == Kill(observed[i].pgrp) else |tail'| == |tail| + 1
    ensures SignalsEach(observed[..i + 1], tail')
  {
    hide SignalsEach;
    var more := tail'[|tail|..];
    SignalsOne(observed[i], more);
    SignalsAppend(observed[..i], tail, observed[i], more);
    assert observed[..i] + [observed[i]] == observed[..i + 1] && tail + more == tail';
  }

  lemma NobodyFound(log: seq<Obs>, m: nat)
    requires PassOk(log, m, []) && forall pid | pid in log[m].pids :: Dismissed(log, m, pid)
    ensures FoundNothing(log, m)
  {
    hide Dismissed;
  }

  lemma PassHasNoScan(log: seq<Obs>, m: nat, observed: seq<Stamp>)
    requires PassOk(log, m, observed)
    ensures PassFrom(log, m) && !log[|log| - 1].ScanFailed?
    ensures forall k | m < k < |log| :: !log[k].Scan?
  {
  }

  lemma SomebodySeen(log: seq<Obs>, m: nat, observed: seq<Stamp>)
    requires PassOk(log, m, observed) && observed != []
    ensures ObservedFrom(log, m) != {}
  {
    assert observed[0].pgrp in Groups(observed);
  }

  lemma PassDoneGrows(log: seq<Obs>, log': seq<Obs>, m: nat)
    requires log <= log'
    ensures PassDone(log, m) ==> PassDone(log', m)
    ensures CutShort(log, m) ==> CutShort(log', m)
  {
    if PassDone(log, m) {
      var n: nat, e: nat, reps: seq<Stamp> :| Carried(log, m, n, e, reps);
      assert log'[..n] == log[..n] && log'[n..e] == log[n..e];
      assert Carried(log', m, n, e, reps);
    }
    if CutShort(log, m) {
      var k :| m < k < |log| && log[k].ScanFailed? && forall j | m < j < k :: !log[j].Scan?;
      assert log'[k].ScanFailed?;
    }
  }

  /** A scan that came last is the only one whose pass is not accounted for yet. */
  lemma EveryPassGrows(log: seq<Obs>, log': seq<Obs>)
    requires EveryPass(log) && log <= log'
    requires forall k | |log| <= k < |log'| && log'[k].Scan? :: PassDone(log', k) || CutShort(log', k)
    ensures EveryPass(log')
  {
    hide PassDone, CutShort;
    forall m | 0 <= m < |log'| && log'[m].Scan? ensures PassDone(log', m) || CutShort(log', m) {
      if m < |log| { PassDoneGrows(log, log', m); }
    }
  }

  lemma NoScanAdded(log: seq<Obs>, log': seq<Obs>)
    requires EveryPass(log) && log <= log' && forall k | |log| <= k < |log'| :: !log'[k].Scan?
    ensures EveryPass(log')
  {
    hide PassDone, CutShort;
    EveryPassGrows(log, log');
  }

  lemma PassCutShort(log: seq<Obs>, log': seq<Obs>)
    requires EveryPass(log) && log < log' && log'[|log'| - 1].ScanFailed? && forall k | |log| < k < |log'| :: !log'[k].Scan?
    ensures EveryPass(log')
  {
    if log'[|log|].Scan? { assert CutShort(log', |log|); }
    hide PassDone, CutShort;
    EveryPassGrows(log, log');
  }

  /** The whole pass, put together from its three phases. */
  lemma PassCarried(start: seq<Obs>, stamped: seq<Obs>, ready: seq<Obs>, log: seq<Obs>, reps: seq<Stamp>)
    requires EveryPass(start) && start < stamped <= ready <= log && stamped[|start|].Scan?
    requires forall pid | pid in stamped[|start|].pids :: Dismissed(stamped, |start|, pid) || StampedIn(stamped, |start|, pid)
    requires PassOk(ready, |start|, reps) && PassOk(log, |start|, reps)
    requires forall s | s in reps :: s.pid == s.pgrp || Leaderless(ready, |start|, s)
    requires SignalsEach(reps, log[|ready|..])
    ensures EveryPass(log) && PassDone(log, |start|)
  {
    hide Seen, Adopted, Leaderless, Dismissed, StampedIn, EveryPass;
    var m, n := |start|, |ready|;
    assert log[..n] == ready && log[n..|log|] == log[|ready|..];
    forall pid | pid in log[m].pids ensures Dismissed(log[..n], m, pid) || StampedIn(log[..n], m, pid) {
      DismissedGrows(stamped, ready, m, pid);
      StampedInGrows(stamped, ready, m, pid);
    }
    assert Carried(log, m, n, |log|, reps);
    EveryPassGrows(start, log);
  }

  lemma NoStampsYet(log: seq<Obs>)
    requires log == []
    ensures EveryPass(log) && Observed(log) == {}
  {
  }

  lemma SomethingStamped(prior: seq<Stamp>, log: seq<Obs>, ledger: seq<Stamp>)
    requires LedgerOk(prior, log, ledger) && ledger != []
    ensures Groups(prior) + Observed(log) != {}
  {
    assert ledger[0].pgrp in Groups(ledger);
  }

  /** With nobody owed and nobody stamped there was nobody to signal and nothing left to confirm. */
  lemma NothingStamped(prior: seq<Stamp>, log: seq<Obs>, m: nat)
    requires LedgerOk(prior, log, []) && Justified(prior, log)
    ensures Groups(prior) + Observed(log) == {} && ObservedFrom(log, m) == {} && AllGoneSince(prior, log, m) && OwedOnce(prior, log)
    ensures forall i | 0 <= i < |log| :: !log[i].Kill?
  {
    assert Groups([]) == {};
    NoSignalWithoutStamps(prior, log);
    ObservedFromIsObserved(log, m);
  }

  lemma ObservedFromIsObserved(log: seq<Obs>, m: nat)
    ensures ObservedFrom(log, m) <= Observed(log)
  {
  }

  lemma OneScanAtMost(prior: seq<Stamp>, log: seq<Obs>)
    requires log != [] && log[|log| - 1].ScanFailed? && forall k | 0 < k < |log| :: !log[k].Scan?
    ensures OwedOnce(prior, log)
  {
    var k := |log| - 1;
    assert forall i, j | 0 <= i < j < k :: !(log[i].Scan? && log[j].Scan?);
  }

  lemma QuietHasNoScan(log: seq<Obs>, log': seq<Obs>)
    requires Quiet(log, log')
    ensures log <= log' && forall k | |log| <= k < |log'| :: !log'[k].Scan?
  {
  }

  lemma PassFromGrows(log: seq<Obs>, log': seq<Obs>, m: nat)
    requires PassFrom(log, m) && Quiet(log, log')
    ensures PassFrom(log', m)
  {
  }

  lemma AnsweredOnce(prior: seq<Stamp>, before: seq<Obs>, log: seq<Obs>, ledger: seq<Stamp>)
    requires before <= log && LedgerOk(prior, before, ledger) && OwedAnswered(log, |before|, |log|, ledger)
    ensures AnsweredIn(prior, log, |before|, |log|, ledger)
  {
    assert log[..|before|] == before;
  }

  lemma AnsweredInGrows(prior: seq<Stamp>, log: seq<Obs>, log': seq<Obs>, a: nat, b: nat, ledger: seq<Stamp>)
    requires AnsweredIn(prior, log, a, b, ledger) && log <= log'
    ensures AnsweredIn(prior, log', a, b, ledger) && OwedOnce(prior, log')
  {
    hide LedgerOk, GoneAt, StillThere;
    assert log'[..a] == log[..a] && log'[..b] == log[..b];
    forall s | s in ledger && s.pid == s.pgrp ensures Answered(log', a, b, s) {
      var k :| a <= k < b && (GoneAt(log[..b], k, s) || (log[k] == Kill(s.pgrp) && StillThere(log[a..k], s)));
      assert log'[a..k] == log[a..k] && log'[k] == log[k];
    }
  }

  /** The adopted leader stands for its group in place of the member. */
  lemma RepAdopted(log: seq<Obs>, m: nat, reps: seq<Stamp>, i: nat, up: Stamp)
    requires PassOk(log, m, reps) && i < |reps| && up.pgrp == reps[i].pgrp && Adopted(log, m, up)
    ensures PassOk(log, m, reps[i := up])
  {
    hide Seen, Adopted;
    var r := reps[i := up];
    forall g ensures g in Groups(r) <==> g in Groups(reps) {
      if g in Groups(reps) {
        var k :| 0 <= k < |reps| && reps[k].pgrp == g;
        assert r[k].pgrp == g;
      }
      if g in Groups(r) {
        var k :| 0 <= k < |r| && r[k].pgrp == g;
        assert reps[k].pgrp == g;
      }
    }
  }

  lemma OneRepPerGroup(log: seq<Obs>, m: nat, reps: seq<Stamp>, i: nat)
    requires PassOk(log, m, reps) && i < |reps|
    ensures forall j | 0 <= j < i :: reps[j].pgrp != reps[i].pgrp
  {
    hide Seen, Adopted;
  }

  lemma MergeHolds(prior: seq<Stamp>, log: seq<Obs>, ledger: seq<Stamp>, up: Stamp)
    requires LedgerOk(prior, log, ledger) && up.pid == up.pgrp
    ensures up in Merge(ledger, up) && forall x | x in ledger && x.pgrp != up.pgrp :: x in Merge(ledger, up)
  {
    MergeIsExact(ledger, up);
  }

  lemma LedgerLeads(prior: seq<Stamp>, log: seq<Obs>, ledger: seq<Stamp>, up: Stamp, g: Pid)
    requires LedgerOk(prior, log, ledger)
    ensures Led(ledger, g) ==> Led(Merge(ledger, up), g)
  {
    MergeLeads(ledger, up, g);
  }

  lemma StampedInGrows(log: seq<Obs>, log': seq<Obs>, m: nat, pid: Pid)
    requires log <= log'
    ensures StampedIn(log, m, pid) ==> StampedIn(log', m, pid)
  {
    if StampedIn(log, m, pid) {
      var k :| m < k && StampsAt(log, k) && log[k].pid == pid;
      assert StampsAt(log', k) && log'[k].pid == pid;
    }
  }

  /** Nothing but reads of processes and groups, and signals, was added. */
  ghost predicate Quiet(log: seq<Obs>, log': seq<Obs>) {
    && log <= log'
    && forall k | |log| <= k < |log'| :: log'[k].Probe? || log'[k].Zombies? || log'[k].StatRead? || log'[k].Kill?
  }

  /** What a pass knows so far: one stamp for each group seen since the scan, earned since, and nobody was missed. */
  ghost predicate PassOk(log: seq<Obs>, m: nat, observed: seq<Stamp>) {
    && PassFrom(log, m)
    && OnePerGroup(observed) && Groups(observed) == ObservedFrom(log, m)
    && (forall s | s in observed :: Seen(log, m, s) || Adopted(log, m, s))
    && (observed == [] ==> forall k | m <= k :: !StampsAt(log, k))
  }

  lemma PassGrows(log: seq<Obs>, log': seq<Obs>, m: nat, observed: seq<Stamp>)
    requires PassOk(log, m, observed) && Quiet(log, log')
    ensures PassOk(log', m, observed)
  {
    forall s | s in observed ensures Seen(log', m, s) || Adopted(log', m, s) {
      SeenGrows(log, log', m, s);
      AdoptedGrows(log, log', m, s);
    }
    QuietObserves(log, log', m);
    if observed == [] {
      forall k | m <= k ensures !StampsAt(log', k) {
        assert StampsAt(log', k) ==> StampsAt(log, k);
      }
    }
  }

  /** Reads and signals see no new group. */
  lemma QuietObserves(log: seq<Obs>, log': seq<Obs>, m: nat)
    requires Quiet(log, log')
    ensures ObservedFrom(log', m) == ObservedFrom(log, m)
  {
    forall k | m <= k ensures StampsAt(log', k) <==> StampsAt(log, k) {
    }
    forall k | StampsAt(log, k) ensures log'[k] == log[k] {
    }
  }

  lemma ObservedFromAppend(log: seq<Obs>, e: Obs, m: nat)
    ensures !(e.Belongs? && e.ours) ==> ObservedFrom(log + [e], m) == ObservedFrom(log, m)
    ensures m < |log| && log[|log| - 1].StatRead? && log[|log| - 1].stat.Some? && e == Belongs(log[|log| - 1].pid, true) ==>
      ObservedFrom(log + [e], m) == ObservedFrom(log, m) + {log[|log| - 1].stat.value.pgrp}
  {
    forall k ensures StampsAt(log, k) ==> StampsAt(log + [e], k) && (log + [e])[k] == log[k] {
      StampsAppend(log, e, k);
    }
    forall k ensures StampsAt(log + [e], k) ==> StampsAt(log, k) || k == |log| - 1 {
      StampsAppend(log, e, k);
    }
    if m < |log| && log[|log| - 1].StatRead? && log[|log| - 1].stat.Some? && e == Belongs(log[|log| - 1].pid, true) {
      assert StampsAt(log + [e], |log| - 1);
    }
  }

  /** The ledger seeded from the first `i` stamps owed. */
  ghost predicate Seeded(owed: seq<Stamp>, i: nat, ledger: seq<Stamp>)
    requires i <= |owed|
  {
    && Groups(ledger) == Groups(owed[..i]) && OnePerGroup(ledger)
    && (forall s | s in ledger :: s in owed)
    && forall j | 0 <= j < i && owed[j].pid == owed[j].pgrp :: Led(ledger, owed[j].pgrp)
  }

  lemma NothingSeeded(owed: seq<Stamp>)
    ensures Seeded(owed, 0, [])
  {
  }

  lemma SeedNext(owed: seq<Stamp>, i: nat, ledger: seq<Stamp>)
    requires i < |owed| && Seeded(owed, i, ledger)
    ensures Seeded(owed, i + 1, Merge(ledger, owed[i]))
  {
    hide Merge;
    MergeKeepsGroups(ledger, owed[i]);
    MergeIsExact(ledger, owed[i]);
    GroupsOfPrefix(owed, i);
    forall j | 0 <= j <= i && owed[j].pid == owed[j].pgrp ensures Led(Merge(ledger, owed[i]), owed[j].pgrp) {
      MergeLeads(ledger, owed[i], owed[j].pgrp);
    }
  }

  lemma SeedIsOk(owed: seq<Stamp>, ledger: seq<Stamp>)
    requires Seeded(owed, |owed|, ledger)
    ensures LedgerOk(owed, [], ledger) && Justified(owed, [])
  {
    assert owed[..|owed|] == owed;
  }

  /** The state of one attempt: its owed groups, the history of its reads, and its durable ledger. */
  class Sweep {
    ghost const prior: seq<Stamp>
    ghost var log: seq<Obs>
    var clock: nat
    var stamped: seq<Stamp>

    ghost predicate Valid()
      reads this
    {
      LedgerOk(prior, log, stamped) && Justified(prior, log)
    }

    /** Seed the ledger from the prior attempt, keyed per group, leader-preferred. */
    constructor (owed: seq<Stamp>)
      ensures Valid() && prior == owed && log == []
    {
      hide Seeded, LedgerOk, Justified;
      prior := owed;
      log := [];
      clock := *;
      var ledger := [];
      NothingSeeded(owed);
      for i := 0 to |owed|
        invariant Seeded(owed, i, ledger)
      {
        SeedNext(owed, i, ledger);
        ledger := Merge(ledger, owed[i]);
      }
      SeedIsOk(owed, ledger);
      stamped := ledger;
    }

    ghost method Note(e: Obs)
      requires Valid() && !(e.Belongs? && e.ours) && (e.Kill? ==> MaySignal(prior, log, e.pgrp))
      modifies this`log
      ensures Valid() && log == old(log) + [e]
    {
      LedgerAppend(prior, log, e, stamped);
      JustifiedAppend(prior, log, e);
      log := log + [e];
    }

    // The environment: every read may answer anything.

    method FindLaunchPids() returns (r: Option<seq<Pid>>)
      requires Valid()
      modifies this`log
      ensures Valid() && log == old(log) + [if r.Some? then Scan(r.value) else ScanFailed]
    {
      r := *;
      Note(if r.Some? then Scan(r.value) else ScanFailed);
    }

    method ReadProcStat(pid: Pid) returns (r: Option<Stat>)
      requires Valid()
      modifies this`log
      ensures Valid() && log == old(log) + [StatRead(pid, r)]
    {
      r := *;
      Note(StatRead(pid, r));
    }

    /** The marker, or a reference into the directory, looked for again; `None` is a scan failure. */
    method BelongsToLaunch() returns (r: Option<bool>) {
      r := *;
    }

    method ProbeGroup(pgrp: Pid) returns (r: Probed)
      requires Valid()
      modifies this`log
      ensures Valid() && log == old(log) + [Probe(pgrp, r)]
    {
      r := *;
      Note(Probe(pgrp, r));
    }

    method GroupIsAllZombies(pgrp: Pid) returns (r: bool)
      requires Valid()
      modifies this`log
      ensures Valid() && log == old(log) + [Zombies(pgrp, r)]
    {
      r := *;
      Note(Zombies(pgrp, r));
    }

    method SigKill(pgrp: Pid)
      requires Valid() && MaySignal(prior, log, pgrp)
      modifies this`log
      ensures Valid() && log == old(log) + [Kill(pgrp)]
    {
      Note(Kill(pgrp));
    }

    method Now() returns (t: nat)
      modifies this`clock
      ensures t == clock && clock >= old(clock)
    {
      var later: int := *;
      if later > clock { clock := later; }
      t := clock;
    }

    method Sleep(ms: nat)
      modifies this`clock
      ensures clock >= old(clock) + ms
    {
      var late: int := *;
      clock := clock + ms + if late > 0 then late else 0;
    }

    // -- one pass ---------------------------------------------------------------------------------

    /** `groupGone`: an empty or foreign group, a provably recycled leader, or nothing but zombies. */
    method GroupGone(s: Stamp) returns (gone: bool)
      requires Valid()
      modifies this`log
      ensures Valid() && Quiet(old(log), log)
      ensures gone ==> GoneSince(log, |old(log)|, s)
      ensures !gone ==> StillThere(log[|old(log)|..], s) && StillThere(log, s)
    {
      hide LedgerOk, Justified;
      ghost var n := |log|;
      var probed := ProbeGroup(s.pgrp);
      if probed != Alive {
        assert probed == NoSuch || probed == Denied ==> GoneAt(log, n, s);
        return probed == NoSuch || probed == Denied;
      }
      if s.pid == s.pgrp {
        var stat := ReadProcStat(s.pgrp);
        if Recycled(stat, s) {
          assert GoneAt(log, n, s);
          return true;
        }
      }
      var zombies := GroupIsAllZombies(s.pgrp);
      if zombies {
        assert GoneAt(log, |log| - 1, s);
      } else {
        assert log[n..][0] == Probe(s.pgrp, Alive) && log[n..][|log| - n - 1] == Zombies(s.pgrp, false);
        assert s.pid == s.pgrp ==> |log| == n + 3 && log[n..][1] == log[n + 1];
        assert StillThere(log[n..], s);
        StillThereLonger(log, 0, n, s);
        assert log[0..] == log;
      }
      return zombies;
    }

    /** Stamp one process of the launch, unless it vanished, or changed hands since the scan. */
    method ObservePid(pid: Pid, seen: seq<Stamp>, ghost m: nat) returns (ok: bool, observed: seq<Stamp>)
      requires Valid() && PassOk(log, m, seen)
      modifies this`log, this`stamped
      ensures Valid() && old(log) <= log && (ok ==> PassOk(log, m, observed))
      ensures ok ==> Dismissed(log, m, pid) || StampedIn(log, m, pid)
      ensures ok && observed == [] ==> seen == [] && Dismissed(log, m, pid)
      ensures !ok ==> |log| > |old(log)| && log[|log| - 1].ScanFailed? && forall k | |old(log)| <= k < |log| :: !log[k].Scan?
      ensures forall g: Pid :: Led(old(stamped), g) ==> Led(stamped, g)
    {
      observed := seen;
      var unreadable: bool := *;
      if unreadable {
        Note(ScanFailed);
        return false, seen;
      }
      ghost var n := |log|;
      var stat := ReadProcStat(pid);
      PassGrows(old(log), log, m, seen);
      if stat.None? {
        assert DismissedAt(log, n, pid);
        return true, seen;
      }
      var answer := BelongsToLaunch();
      if answer.None? {
        Note(ScanFailed);
        return false, seen;
      }
      if !answer.value {
        ghost var before := log;
        Note(Belongs(pid, false));
        assert DismissedAt(log, n, pid);
        PassNotOurs(before, pid, m, seen);
        return true, seen;
      }
      var s := Stamp(pid, stat.value.start, stat.value.pgrp);
      observed := Merge(seen, s);
      StampedPass(log, s, m, seen);
      StampedLedger(prior, log, stamped, s, m, observed);
      JustifiedAppend(prior, log, Belongs(pid, true));
      forall g: Pid ensures Led(stamped, g) ==> Led(Merge(stamped, observed[Find(observed, s.pgrp).value]), g) {
        LedgerLeads(prior, log, stamped, observed[Find(observed, s.pgrp).value], g);
      }
      log := log + [Belongs(pid, true)];
      stamped := Merge(stamped, observed[Find(observed, s.pgrp).value]);
      ok := true;
    }

    /** Phase 1a: stamp every process the scan found. */
    method ObserveAll(pids: seq<Pid>, ghost m: nat) returns (ok: bool, observed: seq<Stamp>)
      requires Valid() && PassOk(log, m, []) && m < |log| && log[m] == Scan(pids)
      modifies this`log, this`stamped
      ensures Valid() && old(log) <= log && (ok ==> PassOk(log, m, observed) && (observed == [] ==> FoundNothing(log, m)))
      ensures ok ==> forall pid | pid in pids :: Dismissed(log, m, pid) || StampedIn(log, m, pid)
      ensures !ok ==> |log| > |old(log)| && log[|log| - 1].ScanFailed? && forall k | m < k < |log| :: !log[k].Scan?
      ensures forall g: Pid :: Led(old(stamped), g) ==> Led(stamped, g)
    {
      hide LedgerOk, Justified, PassOk, Dismissed, StampedIn, Led, FoundNothing;
      observed := [];
      for i := 0 to |pids|
        invariant Valid() && old(log) <= log && PassOk(log, m, observed) && m < |log| && log[m] == Scan(pids)
        invariant observed == [] ==> forall j | 0 <= j < i :: Dismissed(log, m, pids[j])
        invariant forall j | 0 <= j < i :: Dismissed(log, m, pids[j]) || StampedIn(log, m, pids[j])
        invariant forall g: Pid :: Led(old(stamped), g) ==> Led(stamped, g)
      {
        ghost var before, known := log, observed;
        ok, observed := ObservePid(pids[i], observed, m);
        if !ok {
          PassHasNoScan(before, m, known);
          return;
        }
        forall j | 0 <= j < i ensures (Dismissed(before, m, pids[j]) ==> Dismissed(log, m, pids[j])) && (StampedIn(before, m, pids[j]) ==> StampedIn(log, m, pids[j])) {
          DismissedGrows(before, log, m, pids[j]);
          StampedInGrows(before, log, m, pids[j]);
        }
      }
      assert forall pid | pid in pids :: exists j :: 0 <= j < |pids| && pids[j] == pid;
      if observed == [] {
        assert log[m].pids == pids;
        forall pid | pid in pids ensures Dismissed(log, m, pid) { var j :| 0 <= j < |pids| && pids[j] == pid; }
        NobodyFound(log, m);
      }
      ok := true;
    }

    /** The leader's own stamp for `rep`'s group, if the member that led to it is still there. */
    method LeaderOf(rep: Stamp, observed: seq<Stamp>, ghost m: nat) returns (up: Option<Stamp>)
      requires Valid() && PassOk(log, m, observed) && rep in observed && rep.pid != rep.pgrp
      modifies this`log
      ensures Valid() && Quiet(old(log), log) && PassOk(log, m, observed)
      ensures up.Some? ==> up.value.pgrp == rep.pgrp && up.value.pid == rep.pgrp && Adopted(log, m, up.value)
      ensures up.None? ==> Leaderless(log, m, rep)
    {
      ghost var n := |log|;
      var leader := ReadProcStat(rep.pgrp);
      if leader.None? || leader.value.pgrp != rep.pgrp {
        PassGrows(old(log), log, m, observed);
        assert LeaderlessAt(log, n, rep);
        return None;
      }
      var member := ReadProcStat(rep.pid);
      PassGrows(old(log), log, m, observed);
      assert member != Some(Stat(rep.pgrp, rep.start)) ==> LeaderlessAt(log, n, rep);
      if member.None? || member.value.start != rep.start || member.value.pgrp != rep.pgrp { return None; }
      up := Some(Stamp(rep.pgrp, leader.value.start, rep.pgrp));
      LeaderAdopted(old(log), log, m, rep, up.value);
    }

    /**
     Phase 1b: adopt a leader's own generation, but only while the member that led to it is still there;
     every stamp that stays a member's had its leader looked for.
     */
    method UpgradeLeaders(seen: seq<Stamp>, ghost m: nat) returns (observed: seq<Stamp>)
      requires Valid() && PassOk(log, m, seen)
      modifies this`log, this`stamped
      ensures Valid() && PassOk(log, m, observed) && |observed| == |seen| && Quiet(old(log), log)
      ensures forall s | s in observed :: s.pid == s.pgrp || Leaderless(log, m, s)
      ensures forall s | s in observed && s !in seen :: s in stamped
      ensures forall g: Pid :: Led(old(stamped), g) ==> Led(stamped, g)
    {
      hide LedgerOk, Justified, PassOk, Leaderless, Led;
      observed := seen;
      for i := 0 to |seen|
        invariant Valid() && Quiet(old(log), log) && PassOk(log, m, observed) && |observed| == |seen|
        invariant forall j | i <= j < |seen| :: observed[j] == seen[j]
        invariant forall j | 0 <= j < i :: observed[j].pid == observed[j].pgrp || Leaderless(log, m, observed[j])
        invariant forall j | 0 <= j < i && observed[j] !in seen :: observed[j] in stamped
        invariant forall g: Pid :: Led(old(stamped), g) ==> Led(stamped, g)
      {
        if observed[i].pid != observed[i].pgrp {
          ghost var before, ledger, reps := log, stamped, observed;
          var up := LeaderOf(observed[i], observed, m);
          forall j | 0 <= j < i ensures Leaderless(before, m, observed[j]) ==> Leaderless(log, m, observed[j]) {
            LeaderlessGrows(before, log, m, observed[j]);
          }
          if up.Some? {
            AdoptedLedger(prior, log, stamped, up.value, m);
            RepAdopted(log, m, reps, i, up.value);
            MergeHolds(prior, log, ledger, up.value);
            OneRepPerGroup(log, m, reps, i);
            forall g: Pid ensures Led(ledger, g) ==> Led(Merge(ledger, up.value), g) { LedgerLeads(prior, log, ledger, up.value, g); }
            stamped := Merge(stamped, up.value);
            observed := observed[i := up.value];
          }
        }
      }
    }

    /** Phase 2: each representative is re-read once, and signalled right then exactly if it reads back as stamped. */
    method SignalGroups(observed: seq<Stamp>, ghost m: nat)
      requires Valid() && PassOk(log, m, observed)
      modifies this`log
      ensures Valid() && PassOk(log, m, observed) && Quiet(old(log), log)
      ensures SignalsEach(observed, log[|old(log)|..])
    {
      hide LedgerOk, Justified, PassOk, MaySignal;
      for i := 0 to |observed|
        invariant Valid() && PassOk(log, m, observed) && Quiet(old(log), log)
        invariant SignalsEach(observed[..i], log[|old(log)|..])
      {
        ghost var before := log;
        var rep := observed[i];
        var stat := ReadProcStat(rep.pid);
        if stat.Some? && stat.value.start == rep.start && stat.value.pgrp == rep.pgrp {
          PassGrows(before, log, m, observed);
          ReadBack(prior, before, log, m, observed, rep);
          SigKill(rep.pgrp);
        }
        PassGrows(before, log, m, observed);
        SignalsOneMore(observed, i, before[|old(log)|..], log[|old(log)|..]);
      }
      assert observed[..|observed|] == observed;
    }

    /** One scan-stamp-signal pass; nothing discoverable means the scan found nothing of the launch. */
    method KillMatches() returns (discoverable: Option<nat>, ghost m: nat)
      requires Valid() && EveryPass(log)
      modifies this`log, this`stamped
      ensures Valid() && old(log) <= log && EveryPass(log)
      ensures |log| > |old(log)| && (discoverable.None? <==> log[|log| - 1].ScanFailed?)
      ensures discoverable.Some? ==> m == |old(log)| && PassFrom(log, m) && PassDone(log, m)
      ensures forall k | |old(log)| < k < |log| :: !log[k].Scan?
      ensures discoverable == Some(0) ==> FoundNothing(log, m)
      ensures discoverable.Some? && discoverable.value > 0 ==> ObservedFrom(log, m) != {}
      ensures forall g: Pid :: Led(old(stamped), g) ==> Led(stamped, g)
    {
      hide PassFrom, Seen, Adopted, FoundNothing, LedgerOk, Justified, Observed, PassOk, PassDone, CutShort, EveryPass, Leaderless, Dismissed, StampedIn, SignalsEach;
      m := |log|;
      var pids := FindLaunchPids();
      if pids.None? {
        NoScanAdded(old(log), log);
        return None, m;
      }
      PassBegins(old(log), pids.value);
      var ok, seen := ObserveAll(pids.value, m);
      if !ok {
        PassCutShort(old(log), log);
        return None, m;
      }
      ghost var before := log;
      var observed := UpgradeLeaders(seen, m);
      ghost var ready := log;
      SignalGroups(observed, m);
      PassCarried(old(log), before, ready, log, observed);
      PassHasNoScan(log, m, observed);
      if seen == [] { FoundNothingGrows(before, log, m); }
      if observed != [] { SomebodySeen(log, m, observed); }
      discoverable := Some(|observed|);
    }

    /** Once per attempt, every owed leader-stamped group reads as gone or is signalled again right after it does not. */
    method ResignalOwed()
      requires Valid()
      modifies this`log
      ensures Valid() && Quiet(old(log), log)
      ensures OwedAnswered(log, |old(log)|, |log|, stamped)
    {
      hide LedgerOk, Justified, MaySignal, StillThere, GoneAt;
      ghost var a := |log|;
      for i := 0 to |stamped|
        invariant Valid() && Quiet(old(log), log)
        invariant forall j | 0 <= j < i && stamped[j].pid == stamped[j].pgrp :: Answered(log, a, |log|, stamped[j])
      {
        var rep := stamped[i];
        if rep.pid == rep.pgrp {
          ghost var before := log;
          var gone := GroupGone(rep);
          ghost var asked := log;
          if !gone {
            OwedMaySignal(prior, before, log, stamped, rep);
            SigKill(rep.pgrp);
            SignalAnswers(before, asked, log, a, rep);
          } else {
            GoneAnswers(before, log, a, rep);
          }
          forall j | 0 <= j < i && stamped[j].pid == stamped[j].pgrp ensures Answered(log, a, |log|, stamped[j]) {
            AnsweredGrows(before, log, a, stamped[j]);
          }
        }
      }
    }

    /** Is every owed group gone, as read since `m`? If not, one was read and not found gone. */
    method AllGone(ghost m: nat) returns (all: bool)
      requires Valid() && m <= |log|
      modifies this`log
      ensures Valid() && Quiet(old(log), log)
      ensures all ==> forall s | s in stamped :: GoneSince(log, m, s)
      ensures !all ==> exists s :: s in stamped && StillOwed(log, m, s)
    {
      hide LedgerOk, Justified, StillThere, GoneAt;
      for i := 0 to |stamped|
        invariant Valid() && Quiet(old(log), log)
        invariant forall j | 0 <= j < i :: GoneSince(log, m, stamped[j])
      {
        ghost var before := log;
        var gone := GroupGone(stamped[i]);
        if !gone {
          StillOwedFrom(log, m, |before|, stamped[i]);
          return false;
        }
        forall j | 0 <= j < i ensures GoneSince(log, m, stamped[j]) {
          EvidenceGrows(prior, before, log, m, stamped[j]);
        }
        GoneSinceEarlier(log, m, |before|, stamped[i]);
      }
      all := true;
    }

    /**
     The whole sweep. Every scan that no failure cut short was carried through: whoever it found was
     stamped or dismissed, and every group seen was signalled if its representative still read back; and
     once per attempt every owed leader-stamped group was signalled again unless it read as gone.

     Confirmed means: the last scan found nothing of the launch, and since that scan every group owed from
     an earlier attempt or seen in this one read as gone, recycled or all zombies. Unconfirmed carries a
     stamp for every such group, and means that a scan failed, or that at the deadline the last pass still
     saw somebody, or an owed group read as still there. A throw loses nothing: nobody was stamped, and
     unless the process tree itself failed nobody was owed. No signal is ever unjustified.
     */
    method Run(linux: bool, root: Root, confirmMs: nat) returns (o: Outcome)
      requires Valid() && log == []
      modifies this
      ensures Justified(prior, log) && EveryPass(log)
      ensures o.Confirmed? ==> exists m :: FoundNothing(log, m) && AllGoneSince(prior, log, m)
      ensures o.Unconfirmed? ==> LedgerOk(prior, log, o.stamps)
      ensures o.Unconfirmed? && !(log != [] && log[|log| - 1].ScanFailed?) ==> clock >= old(clock) + confirmMs
      ensures o.Unconfirmed? && !(log != [] && log[|log| - 1].ScanFailed?) ==> exists m: nat :: PassFrom(log, m) && LastPassBlocked(log, m, o.stamps)
      ensures o.Confirmed? || o.Unconfirmed? ==> OwedOnce(prior, log)
      ensures o.Unsupported? <==> !linux || root == Absent
      ensures o.Throws? ==> Observed(log) == {} && (root == Failing || (Groups(prior) == {} && log != [] && log[|log| - 1].ScanFailed?))
      ensures o.Throws? ==> forall i | 0 <= i < |log| :: !log[i].Kill?
      ensures linux && root == Failing ==> o.Throws?
      ensures Groups(prior) != {} && linux && root == Readable ==> !o.Throws?
    {
      hide LedgerOk, Justified, PassFrom, FoundNothing, PassDone, CutShort, EveryPass, OwedAnswered, StillOwed, GoneSince, Led;
      NoStampsYet(log);
      if !linux || root == Absent { return Unsupported; }
      if root == Failing { return Throws; }
      var discoverable, m := KillMatches();
      if stamped == [] {
        NothingStamped(prior, log, m);
        if discoverable.None? { return Throws; }
        return Confirmed;
      }
      SomethingStamped(prior, log, stamped);
      if discoverable.None? {
        OneScanAtMost(prior, log);
        return Unconfirmed(stamped);
      }
      ghost var a, ledger := log, stamped;
      ResignalOwed();
      QuietHasNoScan(a, log);
      NoScanAdded(a, log);
      ghost var b := |log|;
      AnsweredOnce(prior, a, log, ledger);
      var started := Now();
      var deadline := started + confirmMs;
      while true
        invariant Valid() && EveryPass(log)
        invariant AnsweredIn(prior, log, |a|, b, ledger)
        invariant clock >= old(clock) && deadline >= old(clock) + confirmMs
        decreases deadline - clock
      {
        ghost var before := log;
        discoverable, m := KillMatches();
        AnsweredInGrows(prior, before, log, |a|, b, ledger);
        if discoverable.None? { return Unconfirmed(stamped); }
        ghost var scanned := log;
        var all := AllGone(m);
        AnsweredInGrows(prior, scanned, log, |a|, b, ledger);
        QuietHasNoScan(scanned, log);
        NoScanAdded(scanned, log);
        PassFromGrows(scanned, log, m);
        QuietObserves(scanned, log, m);
        if all && discoverable.value == 0 {
          FoundNothingGrows(scanned, log, m);
          AllAccountedFor(prior, log, stamped, m);
          return Confirmed;
        }
        var time := Now();
        if time >= deadline { return Unconfirmed(stamped); }
        Sleep(SWEEP_POLL_MS);
      }
    }
  }

  /** The read of `s` at `j` is the one its signal hangs on. */
  predicate Decides(log: seq<Obs>, j: int, s: Stamp) {
    && 0 <= j < |log| && log[j].StatRead? && log[j].pid == s.pid
    && (log[j].stat == Some(Stat(s.pgrp, s.start)) ==> j + 1 < |log| && log[j + 1] == Kill(s.pgrp))
  }

  lemma {:induction false} EachIsDecided(reps: seq<Stamp>, tail: seq<Obs>, i: nat) returns (j: nat)
    requires SignalsEach(reps, tail) && i < |reps|
    ensures Decides(tail, j, reps[i])
    decreases |reps|
  {
    if i == 0 {
      j := 0;
    } else {
      var d := if tail[0].stat == Some(Stat(reps[0].pgrp, reps[0].start)) then 2 else 1;
      var rest := EachIsDecided(reps[1..], tail[d..], i - 1);
      j := d + rest;
      assert tail[d..][rest] == tail[j] && (rest + 1 < |tail[d..]| ==> tail[d..][rest + 1] == tail[j + 1]);
    }
  }

  /** A process of the launch, seen in some group whose stamp was re-read later and signalled if it read back. */
  ghost predicate Pursued(log: seq<Obs>, m: nat, pid: Pid) {
    exists k: nat, s: Stamp, j: nat ::
      && m < k < j && StampsAt(log, k) && log[k].pid == pid && log[k].stat.value.pgrp == s.pgrp
      && (Seen(log, m, s) || Adopted(log, m, s)) && Decides(log, j, s)
  }

  /**
   What a pass is for: in every attempt, every process any scan found was dismissed, or its group was
   pursued, unless a failure cut that pass short.
   */
  lemma FoundIsPursued(log: seq<Obs>, m: nat, pid: Pid)
    requires EveryPass(log) && m < |log| && log[m].Scan? && pid in log[m].pids
    ensures CutShort(log, m) || Dismissed(log, m, pid) || Pursued(log, m, pid)
  {
    hide Carried, CutShort, Dismissed, Pursued;
    if PassDone(log, m) {
      var n: nat, e: nat, reps: seq<Stamp> :| Carried(log, m, n, e, reps);
      CarriedPursues(log, m, n, e, reps, pid);
    }
  }

  lemma CarriedPursues(log: seq<Obs>, m: nat, n: nat, e: nat, reps: seq<Stamp>, pid: Pid)
    requires Carried(log, m, n, e, reps) && m < |log| && log[m].Scan? && pid in log[m].pids
    ensures Dismissed(log, m, pid) || Pursued(log, m, pid)
  {
    hide Seen, Adopted, Leaderless, Dismissed, SignalsEach;
    DismissedGrows(log[..n], log, m, pid);
    if StampedIn(log[..n], m, pid) {
      var k :| m < k && StampsAt(log[..n], k) && log[..n][k].pid == pid;
      assert log[k].stat.value.pgrp in Groups(reps);
      var i :| 0 <= i < |reps| && reps[i].pgrp == log[k].stat.value.pgrp;
      var j := EachIsDecided(reps, log[n..e], i);
      assert Decides(log, n + j, reps[i]) by { assert log[n..e][j] == log[n + j]; }
      SeenGrows(log[..n], log, m, reps[i]);
      AdoptedGrows(log[..n], log, m, reps[i]);
      assert StampsAt(log, k) && m < k < n + j;
    }
  }

  lemma GoneSinceEarlier(log: seq<Obs>, m: nat, n: nat, s: Stamp)
    requires m <= n && GoneSince(log, n, s)
    ensures GoneSince(log, m, s)
  {
    var k :| n <= k && GoneAt(log, k, s);
  }

  lemma AllAccountedFor(prior: seq<Stamp>, log: seq<Obs>, ledger: seq<Stamp>, m: nat)
    requires LedgerOk(prior, log, ledger) && forall s | s in ledger :: GoneSince(log, m, s)
    ensures AllGoneSince(prior, log, m)
  {
    hide Earned, GoneSince, Observed;
    forall g | g in Groups(prior) + Observed(log) ensures exists s: Stamp :: s.pgrp == g && Earned(prior, log, s) && GoneSince(log, m, s) {
      assert g in Groups(ledger);
      var i :| 0 <= i < |ledger| && ledger[i].pgrp == g;
      assert ledger[i] in ledger;
    }
  }

  /** With nobody owed and nobody seen, nobody was signalled. */
  lemma NoSignalWithoutStamps(prior: seq<Stamp>, log: seq<Obs>)
    requires Justified(prior, log) && Groups(prior) == {} && Observed(log) == {}
    ensures forall i | 0 <= i < |log| :: !log[i].Kill?
  {
    hide MaySignal, Observed;
    forall i | 0 <= i < |log| ensures !log[i].Kill? {
      ObservedGrows(log[..i], log);
      if log[i].Kill? {
        OnlyOursIsSignalled(prior, log[..i], log[i].pgrp);
        assert false;
      }
    }
  }

  lemma PassIsObserved(log: seq<Obs>, m: nat, s: Stamp)
    requires Seen(log, m, s) || Adopted(log, m, s)
    ensures s.pgrp in Observed(log)
  {
    if Seen(log, m, s) {
      var k :| m <= k && StampsAt(log, k) && log[k].pid == s.pid && log[k].stat == Some(Stat(s.pgrp, s.start));
    } else {
      AdoptedIsObserved(log, m, s);
    }
  }

  lemma ObservedGrows(log: seq<Obs>, log': seq<Obs>)
    requires log <= log'
    ensures Observed(log) <= Observed(log')
  {
    forall k | StampsAt(log, k) ensures StampsAt(log', k) && log'[k] == log[k] {
    }
  }

  /** Only groups owed from before, or seen in this attempt, can ever be signalled. */
  lemma OnlyOursIsSignalled(prior: seq<Stamp>, log: seq<Obs>, pgrp: Pid)
    requires MaySignal(prior, log, pgrp)
    ensures pgrp in Groups(prior) + Observed(log)
  {
    if exists s: Stamp :: s.pgrp == pgrp && s.pid == pgrp && Earned(prior, log, s) && StillThere(log, s) {
      var s: Stamp :| s.pgrp == pgrp && s.pid == pgrp && Earned(prior, log, s) && StillThere(log, s);
      if s in prior {
        var i :| 0 <= i < |prior| && prior[i] == s;
        assert prior[i].pgrp in Groups(prior);
      } else {
        PassIsObserved(log, 0, s);
      }
    } else {
      var m: nat, s: Stamp :|
        && s.pgrp == pgrp && |log| > 0 && log[|log| - 1] == StatRead(s.pid, Some(Stat(s.pgrp, s.start)))
        && PassFrom(log, m)
        && (Seen(log[..|log| - 1], m, s) || Adopted(log[..|log| - 1], m, s));
      PassIsObserved(log[..|log| - 1], m, s);
      ObservedGrows(log[..|log| - 1], log);
    }
  }

  lemma FoundNothingGrows(log: seq<Obs>, log': seq<Obs>, m: nat)
    requires FoundNothing(log, m) && Quiet(log, log')
    ensures FoundNothing(log', m)
  {
    forall k | m <= k ensures !StampsAt(log', k) {
      assert StampsAt(log', k) ==> StampsAt(log, k);
    }
    forall pid | pid in log'[m].pids ensures Dismissed(log', m, pid) {
      DismissedGrows(log, log', m, pid);
    }
  }

  lemma LeaderAdopted(before: seq<Obs>, log: seq<Obs>, m: nat, rep: Stamp, up: Stamp)
    requires m <= |before| && (Seen(before, m, rep) || Adopted(before, m, rep)) && rep.pid != rep.pgrp
    requires up == Stamp(rep.pgrp, up.start, rep.pgrp)
    requires log == before + [StatRead(rep.pgrp, Some(Stat(rep.pgrp, up.start)))] + [StatRead(rep.pid, Some(Stat(rep.pgrp, rep.start)))]
    ensures Adopted(log, m, up)
  {
    var j := |before|;
    SeenGrows(before, log, m, rep);
    assert log[j] == StatRead(up.pgrp, Some(Stat(up.pgrp, up.start)));
    assert log[j + 1] == StatRead(rep.pid, Some(Stat(rep.pgrp, rep.start)));
  }

  lemma AdoptedIsObserved(log: seq<Obs>, m: nat, up: Stamp)
    requires Adopted(log, m, up)
    ensures up.pgrp in Observed(log)
  {
    var j, member: Stamp :|
      && m <= j && j + 1 < |log|
      && log[j] == StatRead(up.pgrp, Some(Stat(up.pgrp, up.start)))
      && member.pgrp == up.pgrp
      && log[j + 1] == StatRead(member.pid, Some(Stat(member.pgrp, member.start)))
      && Seen(log, m, member);
    var k :| m <= k && StampsAt(log, k) && log[k].pid == member.pid && log[k].stat == Some(Stat(member.pgrp, member.start));
  }

  /** Adopting the leader of a group already stamped adds no group. */
  lemma AdoptedLedger(prior: seq<Stamp>, log: seq<Obs>, ledger: seq<Stamp>, up: Stamp, m: nat)
    requires LedgerOk(prior, log, ledger) && Adopted(log, m, up)
    ensures LedgerOk(prior, log, Merge(ledger, up))
  {
    hide Adopted, Seen, Observed, Led;
    EvidenceGrows(prior, log, log, m, up);
    MergeKeepsGroups(ledger, up);
    MergeIsExact(ledger, up);
    forall g: Pid | Led(ledger, g) ensures Led(Merge(ledger, up), g) { MergeLeads(ledger, up, g); }
    AdoptedIsObserved(log, m, up);
  }

  lemma PassBegins(log: seq<Obs>, pids: seq<Pid>)
    ensures PassOk(log + [Scan(pids)], |log|, [])
  {
  }

  lemma PassNotOurs(log: seq<Obs>, pid: Pid, m: nat, observed: seq<Stamp>)
    requires PassOk(log, m, observed)
    ensures PassOk(log + [Belongs(pid, false)], m, observed)
  {
    var log' := log + [Belongs(pid, false)];
    ObservedFromAppend(log, Belongs(pid, false), m);
    forall s | s in observed ensures Seen(log', m, s) || Adopted(log', m, s) {
      SeenGrows(log, log', m, s);
      AdoptedGrows(log, log', m, s);
    }
    if observed == [] {
      forall k | m <= k ensures !StampsAt(log', k) {
        StampsAppend(log, Belongs(pid, false), k);
      }
    }
  }

  lemma StampedPass(log: seq<Obs>, s: Stamp, m: nat, observed: seq<Stamp>)
    requires PassOk(log, m, observed) && m + 1 < |log|
    requires log[|log| - 1] == StatRead(s.pid, Some(Stat(s.pgrp, s.start)))
    ensures PassOk(log + [Belongs(s.pid, true)], m, Merge(observed, s)) && Find(Merge(observed, s), s.pgrp).Some?
    ensures Seen(log + [Belongs(s.pid, true)], m, s) && StampedIn(log + [Belongs(s.pid, true)], m, s.pid)
    ensures s.pid == s.pgrp ==> Merge(observed, s)[Find(Merge(observed, s), s.pgrp).value].pid == s.pgrp
  {
    var log' := log + [Belongs(s.pid, true)];
    assert StampsAt(log', |log| - 1);
    ObservedFromAppend(log, Belongs(s.pid, true), m);
    MergeKeepsGroups(observed, s);
    MergeIsExact(observed, s);
    if s.pid == s.pgrp { TheStamp(Merge(observed, s), s); }
    assert s.pgrp in Groups(Merge(observed, s));
    forall x | x in Merge(observed, s) ensures Seen(log', m, x) || Adopted(log', m, x) {
      if x != s {
        SeenGrows(log, log', m, x);
        AdoptedGrows(log, log', m, x);
      }
    }
  }

  /** A ledger's stamp for a group is the one it finds. */
  lemma TheStamp(ledger: seq<Stamp>, s: Stamp)
    requires OnePerGroup(ledger) && s in ledger
    ensures Find(ledger, s.pgrp).Some? && ledger[Find(ledger, s.pgrp).value] == s
  {
    var i :| 0 <= i < |ledger| && ledger[i] == s;
    assert forall j | 0 <= j < |ledger| :: ledger[j].pgrp == s.pgrp ==> j == i;
  }

  lemma StampedLedger(prior: seq<Stamp>, log: seq<Obs>, ledger: seq<Stamp>, s: Stamp, m: nat, observed: seq<Stamp>)
    requires LedgerOk(prior, log, ledger) && |log| > 0
    requires log[|log| - 1] == StatRead(s.pid, Some(Stat(s.pgrp, s.start)))
    requires PassOk(log + [Belongs(s.pid, true)], m, observed) && Find(observed, s.pgrp).Some?
    requires s.pid == s.pgrp ==> observed[Find(observed, s.pgrp).value].pid == s.pgrp
    ensures LedgerOk(prior, log + [Belongs(s.pid, true)], Merge(ledger, observed[Find(observed, s.pgrp).value]))
  {
    hide Seen, Adopted, Led;
    var log' := log + [Belongs(s.pid, true)];
    var rep := observed[Find(observed, s.pgrp).value];
    ObservedAppend(log, Belongs(s.pid, true));
    MergeKeepsGroups(ledger, rep);
    MergeIsExact(ledger, rep);
    forall x: Stamp | (x in prior || Seen(log', 0, x)) && x.pid == x.pgrp ensures Led(Merge(ledger, rep), x.pgrp) {
      MergeLeads(ledger, rep, x.pgrp);
      if Seen(log', 0, x) { SeenAppend(log, Belongs(s.pid, true), 0, x); }
    }
    forall x | x in Merge(ledger, rep) ensures Earned(prior, log', x) {
      if x == rep {
        EvidenceGrows(prior, log', log', m, rep);
      } else {
        EvidenceGrows(prior, log, log', 0, x);
      }
    }
  }

  lemma GroupsOfPrefix(owed: seq<Stamp>, i: nat)
    requires i < |owed|
    ensures Groups(owed[..i + 1]) == Groups(owed[..i]) + {owed[i].pgrp}
  {
    var a, b := owed[..i + 1], owed[..i];
    forall g ensures g in Groups(a) <==> g in Groups(b) || g == owed[i].pgrp {
      if g in Groups(a) {
        var k :| 0 <= k < |a| && a[k].pgrp == g;
        if k < i { assert b[k].pgrp == g; }
      }
      if g in Groups(b) {
        var k :| 0 <= k < |b| && b[k].pgrp == g;
        assert a[k].pgrp == g;
      }
      assert a[i].pgrp == owed[i].pgrp;
    }
  }
}
