/**
 The one global response permit of `src/artifacts/store.ts`: a holder, a queue of waiters, and the
 settle hook a close or a poisoning runs. A waiter is a ticket; a lease is a number; `refusing` is the
 store's `closeRequested || unhealthy` at the instant the permit is passed on.
 */
module PermitModel {
  import opened Common
  import opened ReservationLedger

  type Ticket = nat
  type Lease = nat

  /**
   `handed` are waiters answered "granted" whose continuation has not run yet; `answered` is the history
   of every answer; `unfinished` are the leases whose `done` flag is still false.
   */
  datatype Permit = Permit(
    busy: bool,
    holder: Option<Lease>,
    heldId: Option<Id>,
    settle: Option<Lease>,
    waiters: seq<Ticket>,
    handed: set<Ticket>,
    answered: seq<(Ticket, bool)>,
    unfinished: set<Lease>,
    nextTicket: Ticket,
    nextLease: Lease)

  const FREE: Permit := Permit(false, None, None, None, [], {}, [], {}, 0, 0)

  function Refusals(ts: seq<Ticket>): (r: seq<(Ticket, bool)>)
    ensures |r| == |ts| && forall k | 0 <= k < |ts| :: r[k] == (ts[k], false)
  {
    if ts == [] then [] else [(ts[0], false)] + Refusals(ts[1..])
  }

  /** Pass the permit to the first waiter, or to nobody; a closing or poisoned store refuses them all. */
  function Release(p: Permit, refusing: bool): Permit {
    if refusing then p.(busy := false, waiters := [], answered := p.answered + Refusals(p.waiters))
    else if p.waiters == [] then p.(busy := false)
    else p.(waiters := p.waiters[1..], handed := p.handed + {p.waiters[0]}, answered := p.answered + [(p.waiters[0], true)])
  }

  function Yield(p: Permit, lease: Lease, refusing: bool): Permit {
    if p.holder != Some(lease) then p
    else Release(p.(holder := None, heldId := None, settle := None), refusing)
  }

  function RunSettle(p: Permit, refusing: bool): Permit {
    if p.settle.None? then p
    else Yield(p.(settle := None, unfinished := p.unfinished - {p.settle.value}), p.settle.value, refusing)
  }

  function SettleAll(p: Permit, refusing: bool): Permit {
    var p1 := RunSettle(p, refusing);
    p1.(holder := None, heldId := None, waiters := [], answered := p1.answered + Refusals(p1.waiters), busy := false)
  }

  function Enqueue(p: Permit): Permit { p.(waiters := p.waiters + [p.nextTicket], nextTicket := p.nextTicket + 1) }

  function Resume(p: Permit, t: Ticket): Permit { p.(handed := p.handed - {t}) }

  /** The next lease takes the permit, arms its settle hook and starts unfinished. */
  function Take(p: Permit, id: Id): Permit {
    p.(busy := true, holder := Some(p.nextLease), heldId := Some(id), settle := Some(p.nextLease),
       unfinished := p.unfinished + {p.nextLease}, nextLease := p.nextLease + 1)
  }

  /** The lease's own completion: done, and its settle hook detached before anything is deleted. */
  function Finish(p: Permit, lease: Lease, id: Id): Permit {
    p.(unfinished := p.unfinished - {lease}, settle := if p.heldId == Some(id) then None else p.settle)
  }

  /** First come, first answered: every ticket ever taken was answered, in turn, or still waits in turn. */
  ghost predicate Fair(waiters: seq<Ticket>, answered: seq<(Ticket, bool)>, next: Ticket) {
    && |answered| + |waiters| == next
    && (forall i | 0 <= i < |answered| :: answered[i].0 == i)
    && (forall j | 0 <= j < |waiters| :: waiters[j] == |answered| + j)
  }

  lemma FairAfter(waiters: seq<Ticket>, answered: seq<(Ticket, bool)>, next: Ticket)
    requires Fair(waiters, answered, next)
    ensures Fair([], answered + Refusals(waiters), next)
    ensures Fair(waiters + [next], answered, next + 1)
    ensures waiters != [] ==> forall granted :: Fair(waiters[1..], answered + [(waiters[0], granted)], next)
  {
    var all := answered + Refusals(waiters);
    forall j | 0 <= j < |all| ensures all[j].0 == if j < |answered| then answered[j].0 else waiters[j - |answered|] {
    }
  }

  /** What holds even in the middle of a completion. */
  ghost predicate Core(p: Permit) {
    && (!p.busy ==> p.waiters == [] && p.holder.None?)
    && (p.holder.Some? <==> p.heldId.Some?)
    && (p.settle.Some? ==> p.holder == p.settle)
    && (forall l | l in p.unfinished :: p.holder == Some(l))
    && (p.holder.Some? ==> p.handed == {})
    && Fair(p.waiters, p.answered, p.nextTicket)
    && (forall t | t in p.handed :: (t, true) in p.answered)
  }

  /**
   Between steps the holder is exactly the one unfinished lease, with its settle hook armed; a busy
   permit with no holder has been handed to exactly one waiter.
   */
  ghost predicate Resting(p: Permit) {
    && Core(p)
    && (p.busy && p.holder.None? ==> |p.handed| == 1)
    && (p.holder.Some? ==> p.settle == p.holder && p.unfinished == {p.holder.value})
  }

  /** While the store is healthy and open, a free permit was handed to nobody, and nobody was ever refused. */
  ghost predicate NoneLost(p: Permit) {
    && (!p.busy ==> p.handed == {})
    && (forall k | 0 <= k < |p.answered| :: p.answered[k].1)
  }

  lemma YieldKeepsCore(p: Permit, lease: Lease, refusing: bool)
    requires Core(p) && p.holder == Some(lease) && p.unfinished == {}
    ensures var q := Yield(p, lease, refusing);
      && Resting(q) && q.holder.None? && (refusing ==> !q.busy)
      && (!refusing && NoneLost(p) ==> NoneLost(q))
      && (if refusing || p.waiters == [] then q.handed == {} && q.waiters == []
          else q.handed == {p.waiters[0]} && q.waiters == p.waiters[1..] && q.answered == p.answered + [(p.waiters[0], true)])
  {
    hide Fair;
    FairAfter(p.waiters, p.answered, p.nextTicket);
    var p1 := p.(holder := None, heldId := None, settle := None);
    var q := Release(p1, refusing);
    if p.waiters != [] && !refusing {
      assert (p.waiters[0], true) in q.answered;
    }
  }

  /** After a settle of everybody: no holder, no lease left unfinished, no waiter, permit free. */
  lemma SettleAllClears(p: Permit, refusing: bool)
    requires Core(p) && (p.holder.Some? ==> p.settle == p.holder || p.unfinished == {})
    ensures var q := SettleAll(p, refusing);
      Resting(q) && q.holder.None? && q.unfinished == {} && !q.busy && q.waiters == []
  {
    hide Fair;
    if p.settle.Some? {
      var mid := p.(settle := None, unfinished := p.unfinished - {p.settle.value});
      assert mid.unfinished == {};
      YieldKeepsCore(mid, p.settle.value, refusing);
    }
    var p1 := RunSettle(p, refusing);
    FairAfter(p1.waiters, p1.answered, p1.nextTicket);
    var q := SettleAll(p, refusing);
    forall t | t in q.handed ensures (t, true) in q.answered {
      assert (t, true) in p1.answered;
    }
  }

  lemma EnqueueKeepsResting(p: Permit)
    requires Resting(p) && p.busy
    ensures Resting(Enqueue(p))
  {
    hide Fair;
    FairAfter(p.waiters, p.answered, p.nextTicket);
  }

  lemma TakeKeepsResting(p: Permit, id: Id)
    requires Resting(p) && !p.busy && p.handed == {}
    ensures Resting(Take(p, id)) && (NoneLost(p) ==> NoneLost(Take(p, id)))
  {
  }

  /** A resumed waiter takes the permit it was handed; nobody else was handed one. */
  lemma ResumeThenTakeKeepsResting(p: Permit, t: Ticket, id: Id)
    requires Resting(p) && NoneLost(p) && t in p.handed
    ensures p.busy && p.holder.None? && Core(Resume(p, t)) && Resume(p, t).handed == {}
    ensures NoneLost(Take(Resume(p, t), id)) && Resting(Take(Resume(p, t), id))
  {
    OnlyHanded(p.handed, t);
  }

  lemma ResumeThenReleaseKeepsResting(p: Permit, t: Ticket, refusing: bool)
    requires Resting(p) && t in p.handed && (p.busy || refusing)
    ensures Resting(Release(Resume(p, t), refusing))
    ensures !refusing && NoneLost(p) ==> NoneLost(Release(Resume(p, t), refusing))
    ensures refusing ==> !Release(Resume(p, t), refusing).busy
  {
    hide Fair;
    FairAfter(p.waiters, p.answered, p.nextTicket);
    if p.busy {
      OnlyHanded(p.handed, t);
    }
    var q := Release(Resume(p, t), refusing);
    forall u | u in q.handed ensures (u, true) in q.answered {
      if u in p.handed {
        assert (u, true) in p.answered;
      } else {
        assert (u, true) == q.answered[|p.answered|];
      }
    }
  }

  /** A release moves the queue alone; who holds the permit, and for which record, stays. */
  lemma ReleaseKeepsHolder(p: Permit, t: Ticket, refusing: bool)
    requires t !in p.waiters
    ensures var q := Release(Resume(p, t), refusing);
      q.holder == p.holder && q.heldId == p.heldId && q.settle == p.settle && q.unfinished == p.unfinished && t !in q.handed
  {
  }

  lemma HandedIsNotQueued(p: Permit, t: Ticket)
    requires Core(p) && t in p.handed
    ensures t !in p.waiters
  {
    assert (t, true) in p.answered;
  }

  lemma OnlyHanded(handed: set<Ticket>, t: Ticket)
    requires t in handed && |handed| == 1
    ensures handed == {t}
  {
    assert |handed - {t}| == 0;
  }

  lemma FinishKeepsCore(p: Permit, lease: Lease, id: Id)
    requires Core(p) && p.holder == Some(lease) && p.heldId == Some(id)
    ensures Core(Finish(p, lease, id)) && Finish(p, lease, id).unfinished == {}
  {
  }
}

/** The permit as the store keeps it; the queue is drained in place. */
module Permit {
  import opened Common
  import opened ReservationLedger
  import opened M = PermitModel

  class ResponsePermit {
    var busy: bool
    var holder: Option<Lease>
    var heldId: Option<Id>
    var settle: Option<Lease>
    var waiters: seq<Ticket>
    var handed: set<Ticket>
    var answered: seq<(Ticket, bool)>
    var unfinished: set<Lease>
    var nextTicket: Ticket
    var nextLease: Lease

    ghost function View(): M.Permit reads this {
      M.Permit(busy, holder, heldId, settle, waiters, handed, answered, unfinished, nextTicket, nextLease)
    }

    constructor ()
      ensures View() == FREE && Resting(View())
    {
      busy, holder, heldId, settle := false, None, None, None;
      waiters, handed, answered, unfinished := [], {}, [], {};
      nextTicket, nextLease := 0, 0;
    }

    /** Wake waiters until one is granted or none is left. */
    method Release(refusing: bool)
      modifies this`busy, this`waiters, this`handed, this`answered
      ensures View() == M.Release(old(View()), refusing)
    {
      ghost var k := 0;
      while waiters != []
        invariant 0 <= k <= |old(waiters)| && waiters == old(waiters)[k..]
        invariant busy == old(busy) && handed == old(handed)
        invariant answered == old(answered) + Refusals(old(waiters))[..k]
        invariant k > 0 ==> refusing
      {
        var next := waiters[0];
        waiters := waiters[1..];
        answered := answered + [(next, !refusing)];
        if !refusing {
          handed := handed + {next};
          return;
        }
        assert Refusals(old(waiters))[..k + 1] == Refusals(old(waiters))[..k] + [(next, false)];
        k := k + 1;
      }
      busy := false;
    }

    method Yield(lease: Lease, refusing: bool)
      modifies this
      ensures View() == M.Yield(old(View()), lease, refusing)
    {
      if holder != Some(lease) { return; }
      holder, heldId, settle := None, None, None;
      Release(refusing);
    }

    /** Detach the settle hook, then run it: the lease is done and yields. */
    method RunSettle(refusing: bool)
      modifies this
      ensures View() == M.RunSettle(old(View()), refusing)
    {
      var hook := settle;
      settle := None;
      if hook.Some? {
        unfinished := unfinished - {hook.value};
        Yield(hook.value, refusing);
      }
    }

    method SettleAll(refusing: bool)
      modifies this
      ensures View() == M.SettleAll(old(View()), refusing)
    {
      RunSettle(refusing);
      holder, heldId := None, None;
      RefuseAll();
      busy := false;
    }

    /** Answer every waiter still queued with a refusal, in order. */
    method RefuseAll()
      modifies this`waiters, this`answered
      ensures waiters == [] && answered == old(answered) + Refusals(old(waiters))
    {
      ghost var k := 0;
      while waiters != []
        invariant 0 <= k <= |old(waiters)| && waiters == old(waiters)[k..]
        invariant answered == old(answered) + Refusals(old(waiters))[..k]
      {
        assert Refusals(old(waiters))[..k + 1] == Refusals(old(waiters))[..k] + [(waiters[0], false)];
        answered := answered + [(waiters[0], false)];
        waiters := waiters[1..];
        k := k + 1;
      }
    }

    method Enqueue() returns (t: Ticket)
      modifies this`waiters, this`nextTicket
      ensures View() == M.Enqueue(old(View())) && t == old(nextTicket)
    {
      t := nextTicket;
      waiters, nextTicket := waiters + [t], nextTicket + 1;
    }

    method Resume(t: Ticket)
      modifies this`handed
      ensures View() == M.Resume(old(View()), t)
    {
      handed := handed - {t};
    }

    method Take(id: Id) returns (lease: Lease)
      modifies this`busy, this`holder, this`heldId, this`settle, this`unfinished, this`nextLease
      ensures View() == M.Take(old(View()), id) && lease == old(nextLease)
    {
      lease := nextLease;
      busy, holder, heldId, settle := true, Some(lease), Some(id), Some(lease);
      unfinished, nextLease := unfinished + {lease}, nextLease + 1;
    }
  }
}
