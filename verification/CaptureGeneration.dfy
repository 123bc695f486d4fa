/**
 The capture-generation protocol of `src/browser/patchright-core.ts`: who owns each driver download.

 Every operation and every driver object is untrusted and may call back in: an operation while it is
 registering or being invalidated, a download while its disposal is read and invoked. A `Calls` value is
 the finite tree of what was called from inside what. `routed`, `taken`, `mine`, `registers`, `took` and
 `told` are history.
 */
module CaptureModel {
  import opened Common

  type Download = nat
  type Page = nat
  type Result = nat

  datatype Receipt = Took | Refused | NotBoolean | Threw

  datatype Calls = Nothing | Then(first: Call, rest: Calls)

  datatype Call =
    | Emits(dl: Download, receipt: Receipt, registering: Calls,
            invalidating: Calls, invalidateThrows: bool, disposing: Calls)
    | Begins(operation: bool, page: Option<Page>)
    | Retires(page: Option<Page>, invalidating: Calls)
    | Shuts(invalidating: Calls)
    | ClosesPage(closing: Page, invalidating: Calls)

  datatype Claim = Unclaimed | Claiming | Claimed

  datatype Generation = Generation(owner: Option<Page>, sealing: bool, claim: Claim, settled: Option<Option<Result>>,
                                   registers: nat, took: nat, told: bool)

  datatype Core = Core(
    gens: seq<Generation>, current: Option<nat>,
    dirty: bool, closing: bool, fenced: multiset<Page>,
    pending: int, unfinished: multiset<Download>,
    routed: multiset<Download>, taken: multiset<Download>, mine: multiset<Download>)

  const CLEAN: Core := Core([], None, false, false, multiset{}, 0, multiset{}, multiset{}, multiset{}, multiset{})

  function With(c: Core, g: nat, gen: Generation): Core
    requires g < |c.gens|
  {
    c.(gens := c.gens[g := gen])
  }

  /** Accounting first; only then may the driver's own properties be touched. */
  function Accounted(c: Core, dl: Download): Core {
    c.(pending := c.pending + 1, unfinished := c.unfinished + multiset{dl}, mine := c.mine + multiset{dl})
  }

  /** What a dirty, closing or still-disposing core refuses, with or without an operation. */
  predicate Usable(c: Core, page: Option<Page>) {
    && !c.closing && !c.dirty && c.pending <= 0
    && (page.Some? ==> page.value !in c.fenced)
  }

  function Begin(c: Core, operation: bool, page: Option<Page>): (r: Core)
    ensures |c.gens| <= |r.gens|
  {
    if !Usable(c, page) || !operation then c
    else if c.current.Some? then c.(dirty := true)
    else c.(gens := c.gens + [Generation(page, false, Unclaimed, None, 0, 0, false)], current := Some(|c.gens|))
  }

  function Retire(c: Core, page: Option<Page>, invalidating: Calls): (r: Core)
    ensures |c.gens| <= |r.gens|
    decreases invalidating, 1
  {
    if c.current.None? || c.current.value >= |c.gens| then c
    else
      var g := c.current.value;
      if page.Some? && c.gens[g].owner != page then c
      else RunCalls(With(c, g, c.gens[g].(told := true)).(current := None), invalidating)
  }

  function Refuse(c: Core, g: nat, call: Call, violation: bool): (r: Core)
    requires g < |c.gens| && call.Emits?
    ensures |c.gens| <= |r.gens|
    decreases call, 0
  {
    var c1 := With(c, g, c.gens[g].(sealing := true, told := true)).(dirty := c.dirty || violation);
    var c2 := RunCalls(c1, call.invalidating);
    RunCalls(Accounted(c2.(dirty := c2.dirty || call.invalidateThrows), call.dl), call.disposing)
  }

  /** `#routeDownload`, with everything that happened inside it. */
  function Route(c: Core, call: Call): (r: Core)
    requires call.Emits?
    ensures |c.gens| <= |r.gens|
    decreases call, 1
  {
    var c0 := c.(routed := c.routed + multiset{call.dl});
    if c.current.None? || c.current.value >= |c.gens| then RunCalls(Accounted(c0.(dirty := true), call.dl), call.disposing)
    else
      var g := c.current.value;
      if c.gens[g].sealing then
        var c1 := RunCalls(Accounted(c0, call.dl), call.disposing);
        RunCalls(With(c1, g, c1.gens[g].(told := true)), call.invalidating)
      else if c.gens[g].claim != Unclaimed then
        var c1 := RunCalls(With(c0, g, c.gens[g].(sealing := true, told := true)), call.invalidating);
        RunCalls(Accounted(c1, call.dl), call.disposing)
      else
        var c1 := RunCalls(With(c0, g, c.gens[g].(claim := Claiming, registers := c.gens[g].registers + 1)), call.registering);
        if call.receipt == Took then
          With(c1, g, c1.gens[g].(claim := Claimed, took := c1.gens[g].took + 1)).(taken := c1.taken + multiset{call.dl})
        else Refuse(c1, g, call, call.receipt != Refused)
  }

  function Exec(c: Core, call: Call): (r: Core)
    ensures |c.gens| <= |r.gens|
    decreases call, 2
  {
    match call
    case Emits(_, _, _, _, _, _) => Route(c, call)
    case Begins(operation, page) => Begin(c, operation, page)
    case Retires(page, invalidating) => Retire(c, page, invalidating)
    case Shuts(invalidating) => Retire(c.(closing := true), None, invalidating)
    case ClosesPage(closing, invalidating) => Retire(c.(fenced := c.fenced + multiset{closing}), Some(closing), invalidating)
  }

  function RunCalls(c: Core, calls: Calls): (r: Core)
    ensures |c.gens| <= |r.gens|
    decreases calls, 0
  {
    match calls
    case Nothing => c
    case Then(first, rest) => RunCalls(Exec(c, first), rest)
  }

  // -- segments that only run at the top ------------------------------------------------------------

  datatype Event =
    | Calls1(call: Call)
    | DisposalEnds(dl: Download, confirmed: bool)
    | PageClosed(page: Page)
    | SettleStarts(g: nat)
    | SettleEnds(h: nat, inside: Calls, outcome: Option<Option<Result>>)

  predicate Enabled(c: Core, e: Event) {
    match e
    case DisposalEnds(dl, _) => dl in c.unfinished
    case SettleStarts(g) => g < |c.gens|
    case SettleEnds(g, _, _) => g < |c.gens| && c.gens[g].settled.None?
    case _ => true
  }

  /** The cutoff: a handle already settled is not sealed again. */
  function StartSettling(c: Core, g: nat): Core
    requires g < |c.gens|
  {
    if c.gens[g].settled.Some? || c.current != Some(g) then c else With(c, g, c.gens[g].(sealing := true))
  }

  /** The operation settled, or refused to: then the core turns dirty and the handle stays unsettled. */
  function FinishSettling(c: Core, g: nat, inside: Calls, outcome: Option<Option<Result>>): Core
    requires g < |c.gens|
  {
    var c1 := RunCalls(c, inside);
    if outcome.None? then c1.(dirty := true)
    else
      With(c1, g, c1.gens[g].(settled := outcome)).(current := if c1.current == Some(g) then None else c1.current)
  }

  function Step(c: Core, e: Event): Core
    requires Enabled(c, e)
  {
    match e
    case Calls1(call) => Exec(c, call)
    case DisposalEnds(dl, confirmed) =>
      c.(pending := c.pending - 1, unfinished := c.unfinished - multiset{dl}, dirty := c.dirty || !confirmed)
    case PageClosed(page) => c.(fenced := c.fenced - multiset{page})
    case SettleStarts(g) => StartSettling(c, g)
    case SettleEnds(g, inside, outcome) => FinishSettling(c, g, inside, outcome)
  }

  function Run(c: Core, es: seq<Event>): Core
    decreases |es|
  {
    if es == [] then c else Run(if Enabled(c, es[0]) then Step(c, es[0]) else c, es[1..])
  }

  // -- what holds at every instant, also in the middle of a call ------------------------------------

  /** An operation is asked at most once per generation, and took at most what it was asked about. */
  predicate GenOk(g: Generation) {
    && g.registers == (if g.claim == Unclaimed then 0 else 1)
    && g.took == (if g.claim == Claimed then 1 else 0)
  }

  ghost predicate CoreInv(c: Core) {
    && (c.current.Some? ==> c.current.value < |c.gens|)
    && c.pending == |c.unfinished|
    && (forall g | 0 <= g < |c.gens| :: GenOk(c.gens[g]))
  }

  /** What no call, however nested, undoes about one generation. */
  predicate GenEvolves(g: Generation, g': Generation) {
    && g'.owner == g.owner
    && (g.sealing ==> g'.sealing && g'.registers == g.registers)
    && (g.claim == Claiming ==> g'.claim == Claiming)
    && (g.claim == Claimed ==> g'.claim == Claimed)
    && (g.settled.Some? ==> g'.settled == g.settled)
    && (g.told ==> g'.told)
  }

  ghost predicate Evolves(c: Core, c': Core) {
    && |c.gens| <= |c'.gens|
    && (forall g | 0 <= g < |c.gens| :: GenEvolves(c.gens[g], c'.gens[g]))
    && (c.dirty ==> c'.dirty) && (c.closing ==> c'.closing)
    && (c.dirty || c.closing ==> |c'.gens| == |c.gens|)
    && (c'.current.Some? && c'.current.value < |c.gens| ==> c'.current == c.current)
  }

  /** Every download routed meanwhile got exactly one owner. */
  ghost predicate Owned(c: Core, c': Core) {
    forall d: Download :: c.routed[d] + c'.taken[d] + c'.mine[d] == c'.routed[d] + c.taken[d] + c.mine[d]
  }

  ghost predicate Keeps(c: Core, c': Core) {
    && CoreInv(c') && Evolves(c, c') && Owned(c, c')
    && (forall g | 0 <= g < |c.gens| :: c'.gens[g].settled == c.gens[g].settled)
  }

  lemma EvolvesTransitive(a: Core, b: Core, c: Core)
    requires Evolves(a, b) && Evolves(b, c)
    ensures Evolves(a, c)
  {
  }

  lemma KeepsTransitive(a: Core, b: Core, c: Core)
    requires Keeps(a, b) && Keeps(b, c)
    ensures Keeps(a, c)
  {
    EvolvesTransitive(a, b, c);
  }

  lemma KeepsReflexive(c: Core)
    requires CoreInv(c)
    ensures Keeps(c, c)
  {
  }

  lemma KeepsIsInv(c: Core, c': Core)
    requires Keeps(c, c')
    ensures CoreInv(c') && |c.gens| <= |c'.gens|
  {
  }

  /** Telling a generation's operation, sealing the generation, or both. */
  lemma ToldKeeps(c: Core, g: nat, seal: bool, dirty: bool)
    requires CoreInv(c) && g < |c.gens|
    ensures var gen := c.gens[g].(told := true, sealing := c.gens[g].sealing || seal);
      Keeps(c, With(c, g, gen).(dirty := c.dirty || dirty))
    ensures With(c, g, c.gens[g].(told := true)) == With(c, g, c.gens[g].(told := true, sealing := c.gens[g].sealing || false)).(dirty := c.dirty || false)
  {
  }

  lemma DirtyKeeps(c: Core, dirty: bool)
    requires CoreInv(c)
    ensures Keeps(c, c.(dirty := c.dirty || dirty))
  {
  }

  /** A routed download is somebody's debt until it is taken or accounted for. */
  ghost predicate Owes(c: Core, c': Core, dl: Download) {
    && CoreInv(c') && Evolves(c, c')
    && (forall d: Download ::
          c.routed[d] + c'.taken[d] + c'.mine[d] + (if d == dl then 1 else 0) == c'.routed[d] + c.taken[d] + c.mine[d])
    && (forall g | 0 <= g < |c.gens| :: c'.gens[g].settled == c.gens[g].settled)
  }

  lemma OwesThen(a: Core, b: Core, c: Core, dl: Download)
    requires CoreInv(a)
    ensures Owes(a, b, dl) && Keeps(b, c) ==> Owes(a, c, dl)
    ensures Keeps(a, b) && Owes(b, c, dl) ==> Owes(a, c, dl)
  {
    if Evolves(a, b) && Evolves(b, c) { EvolvesTransitive(a, b, c); }
  }

  lemma DebtPaid(a: Core, b: Core, dl: Download)
    requires Owes(a, b, dl)
    ensures Keeps(a, Accounted(b, dl))
  {
  }

  lemma RoutedOwes(c: Core, dl: Download, dirty: bool)
    requires CoreInv(c)
    ensures Owes(c, c.(routed := c.routed + multiset{dl}, dirty := c.dirty || dirty), dl)
  {
  }

  lemma ClaimingOwes(c: Core, g: nat, dl: Download)
    requires CoreInv(c) && g < |c.gens| && c.gens[g].claim == Unclaimed && !c.gens[g].sealing
    ensures var gen := c.gens[g].(claim := Claiming, registers := c.gens[g].registers + 1);
      Owes(c, With(c.(routed := c.routed + multiset{dl}), g, gen), dl)
  {
  }

  /** The transfer of ownership ends the claim, whatever re-entered meanwhile. */
  lemma ClaimedKeeps(c: Core, c1: Core, g: nat, dl: Download)
    requires CoreInv(c) && g < |c.gens| && c.gens[g].claim == Unclaimed && !c.gens[g].sealing
    requires Owes(c, c1, dl) && c1.gens[g].claim == Claiming
    ensures Keeps(c, With(c1, g, c1.gens[g].(claim := Claimed, took := c1.gens[g].took + 1)).(taken := c1.taken + multiset{dl}))
  {
  }

  // -- the induction over everything that may call back in ------------------------------------------

  lemma {:induction false} RunCallsKeeps(c: Core, calls: Calls)
    requires CoreInv(c)
    ensures Keeps(c, RunCalls(c, calls))
    decreases calls, 0
  {
    hide CoreInv, Keeps, Exec;
    match calls {
      case Nothing => KeepsReflexive(c);
      case Then(first, rest) =>
        ExecKeeps(c, first);
        KeepsIsInv(c, Exec(c, first));
        RunCallsKeeps(Exec(c, first), rest);
        KeepsTransitive(c, Exec(c, first), RunCalls(Exec(c, first), rest));
    }
  }

  lemma BeginKeeps(c: Core, operation: bool, page: Option<Page>)
    requires CoreInv(c)
    ensures Keeps(c, Begin(c, operation, page))
  {
  }

  lemma VacatedKeeps(c: Core, g: nat)
    requires CoreInv(c) && c.current == Some(g)
    ensures Keeps(c, With(c, g, c.gens[g].(told := true)).(current := None))
  {
  }

  lemma {:induction false} RetireKeeps(c: Core, page: Option<Page>, invalidating: Calls)
    requires CoreInv(c)
    ensures Keeps(c, Retire(c, page, invalidating))
    decreases invalidating, 1
  {
    hide CoreInv, Keeps;
    if c.current.None? || c.current.value >= |c.gens| || (page.Some? && c.gens[c.current.value].owner != page) {
      KeepsReflexive(c);
    } else {
      var g := c.current.value;
      VacatedKeeps(c, g);
      var c1 := With(c, g, c.gens[g].(told := true)).(current := None);
      KeepsIsInv(c, c1);
      RunCallsKeeps(c1, invalidating);
      KeepsTransitive(c, c1, RunCalls(c1, invalidating));
    }
  }

  lemma FenceKeeps(c: Core, closing: bool, fenced: multiset<Page>)
    requires CoreInv(c)
    ensures Keeps(c, c.(closing := c.closing || closing, fenced := fenced))
  {
  }

  lemma {:induction false} ExecKeeps(c: Core, call: Call)
    requires CoreInv(c)
    ensures Keeps(c, Exec(c, call))
    decreases call, 3
  {
    hide CoreInv, Keeps, Route, Retire, Begin;
    match call {
      case Emits(_, _, _, _, _, _) => RouteKeeps(c, call);
      case Begins(operation, page) => BeginKeeps(c, operation, page);
      case Retires(page, invalidating) => RetireKeeps(c, page, invalidating);
      case Shuts(invalidating) =>
        FenceKeeps(c, true, c.fenced);
        var c1 := c.(closing := true);
        assert c1 == c.(closing := c.closing || true, fenced := c.fenced);
        KeepsIsInv(c, c1);
        RetireKeeps(c1, None, invalidating);
        KeepsTransitive(c, c1, Retire(c1, None, invalidating));
      case ClosesPage(closing, invalidating) =>
        FenceKeeps(c, false, c.fenced + multiset{closing});
        var c1 := c.(fenced := c.fenced + multiset{closing});
        assert c1 == c.(closing := c.closing || false, fenced := c.fenced + multiset{closing});
        KeepsIsInv(c, c1);
        RetireKeeps(c1, Some(closing), invalidating);
        KeepsTransitive(c, c1, Retire(c1, Some(closing), invalidating));
    }
  }

  /** The core's own disposal, and everything its driver calls let in. */
  lemma {:induction false} DisposeKeeps(c: Core, c1: Core, call: Call)
    requires CoreInv(c) && call.Emits? && Owes(c, c1, call.dl)
    ensures Keeps(c, RunCalls(Accounted(c1, call.dl), call.disposing))
    decreases call, 0
  {
    hide CoreInv, Keeps, Owes, Accounted;
    DebtPaid(c, c1, call.dl);
    KeepsIsInv(c, Accounted(c1, call.dl));
    RunCallsKeeps(Accounted(c1, call.dl), call.disposing);
    KeepsTransitive(c, Accounted(c1, call.dl), RunCalls(Accounted(c1, call.dl), call.disposing));
  }

  lemma OwesIsInv(c: Core, c': Core, dl: Download)
    requires Owes(c, c', dl)
    ensures CoreInv(c') && |c.gens| <= |c'.gens| && Evolves(c, c')
  {
  }

  lemma {:induction false} RefuseKeeps(c: Core, c1: Core, g: nat, call: Call, violation: bool)
    requires CoreInv(c) && call.Emits? && g < |c1.gens| && Owes(c, c1, call.dl)
    ensures Keeps(c, Refuse(c1, g, call, violation))
    decreases call, 1
  {
    hide CoreInv, Keeps, Owes, Accounted, With;
    OwesIsInv(c, c1, call.dl);
    ToldKeeps(c1, g, true, violation);
    var c2 := With(c1, g, c1.gens[g].(sealing := true, told := true)).(dirty := c1.dirty || violation);
    assert c1.gens[g].(told := true, sealing := c1.gens[g].sealing || true) == c1.gens[g].(sealing := true, told := true);
    KeepsIsInv(c1, c2);
    RunCallsKeeps(c2, call.invalidating);
    var c3 := RunCalls(c2, call.invalidating);
    KeepsIsInv(c2, c3);
    KeepsTransitive(c1, c2, c3);
    DirtyKeeps(c3, call.invalidateThrows);
    var c4 := c3.(dirty := c3.dirty || call.invalidateThrows);
    KeepsTransitive(c1, c3, c4);
    OwesThen(c, c1, c4, call.dl);
    DisposeKeeps(c, c4, call);
  }

  lemma {:induction false} RouteKeeps(c: Core, call: Call)
    requires CoreInv(c) && call.Emits?
    ensures Keeps(c, Route(c, call))
    decreases call, 2
  {
    hide CoreInv, Keeps, Owes, Accounted, With, Refuse;
    var c0 := c.(routed := c.routed + multiset{call.dl});
    if c.current.None? || c.current.value >= |c.gens| {
      RoutedOwes(c, call.dl, true);
      assert c.(routed := c.routed + multiset{call.dl}, dirty := c.dirty || true) == c0.(dirty := true);
      DisposeKeeps(c, c0.(dirty := true), call);
    } else {
      var g := c.current.value;
      RoutedOwes(c, call.dl, false);
      assert c.(routed := c.routed + multiset{call.dl}, dirty := c.dirty || false) == c0;
      OwesIsInv(c, c0, call.dl);
      if c.gens[g].sealing {
        DisposeKeeps(c, c0, call);
        LateKeeps(c, RunCalls(Accounted(c0, call.dl), call.disposing), g, call.invalidating);
      } else if c.gens[g].claim != Unclaimed {
        SecondEventKeeps(c, c0, g, call);
      } else {
        ClaimingOwes(c, g, call.dl);
        var c1 := With(c0, g, c.gens[g].(claim := Claiming, registers := c.gens[g].registers + 1));
        OwesIsInv(c, c1, call.dl);
        RunCallsKeeps(c1, call.registering);
        var c2 := RunCalls(c1, call.registering);
        OwesThen(c, c1, c2, call.dl);
        if call.receipt == Took {
          StillClaiming(c1, c2, g);
          WithAt(c0, g, c.gens[g].(claim := Claiming, registers := c.gens[g].registers + 1));
          ClaimedKeeps(c, c2, g, call.dl);
        } else {
          RefuseKeeps(c, c2, g, call, call.receipt != Refused);
        }
      }
    }
  }

  lemma WithAt(c: Core, g: nat, gen: Generation)
    requires g < |c.gens|
    ensures |With(c, g, gen).gens| == |c.gens| && With(c, g, gen).gens[g] == gen
  {
  }

  lemma StillClaiming(c: Core, c': Core, g: nat)
    requires Keeps(c, c') && g < |c.gens|
    ensures g < |c'.gens| && (c.gens[g].claim == Claiming ==> c'.gens[g].claim == Claiming)
  {
  }

  lemma {:induction false} LateKeeps(c: Core, c1: Core, g: nat, invalidating: Calls)
    requires CoreInv(c) && Keeps(c, c1) && g < |c.gens|
    ensures g < |c1.gens| && Keeps(c, RunCalls(With(c1, g, c1.gens[g].(told := true)), invalidating))
    decreases invalidating, 1
  {
    hide CoreInv, Keeps, With;
    KeepsIsInv(c, c1);
    ToldKeeps(c1, g, false, false);
    var c2 := With(c1, g, c1.gens[g].(told := true));
    KeepsIsInv(c1, c2);
    KeepsTransitive(c, c1, c2);
    RunCallsKeeps(c2, invalidating);
    KeepsTransitive(c, c2, RunCalls(c2, invalidating));
  }

  lemma {:induction false} SecondEventKeeps(c: Core, c0: Core, g: nat, call: Call)
    requires CoreInv(c) && call.Emits? && Owes(c, c0, call.dl) && g < |c0.gens|
    ensures var c1 := RunCalls(With(c0, g, c0.gens[g].(sealing := true, told := true)), call.invalidating);
      Keeps(c, RunCalls(Accounted(c1, call.dl), call.disposing))
    decreases call, 1
  {
    hide CoreInv, Keeps, Owes, Accounted, With;
    OwesIsInv(c, c0, call.dl);
    ToldKeeps(c0, g, true, false);
    var c1 := With(c0, g, c0.gens[g].(sealing := true, told := true));
    SealedShape(c0, g);
    KeepsIsInv(c0, c1);
    RunCallsKeeps(c1, call.invalidating);
    var c2 := RunCalls(c1, call.invalidating);
    KeepsTransitive(c0, c1, c2);
    OwesThen(c, c0, c2, call.dl);
    DisposeKeeps(c, c2, call);
  }

  lemma SealedShape(c: Core, g: nat)
    requires g < |c.gens|
    ensures With(c, g, c.gens[g].(told := true, sealing := c.gens[g].sealing || true)).(dirty := c.dirty || false)
      == With(c, g, c.gens[g].(sealing := true, told := true))
  {
  }

  // -- every step, every run ------------------------------------------------------------------------

  /** A handle that settled keeps its outcome; everything else as in any call. */
  ghost predicate StepKeeps(c: Core, c': Core) {
    && CoreInv(c') && Evolves(c, c') && Owned(c, c')
  }

  lemma CutoffKeeps(c: Core, g: nat)
    requires CoreInv(c) && g < |c.gens|
    ensures StepKeeps(c, StartSettling(c, g))
  {
  }

  lemma RecordKeeps(c: Core, g: nat, outcome: Option<Option<Result>>)
    requires CoreInv(c) && g < |c.gens| && c.gens[g].settled.None?
    ensures StepKeeps(c, With(c, g, c.gens[g].(settled := outcome)).(current := if c.current == Some(g) then None else c.current))
  {
  }

  lemma SettleKeeps(c: Core, g: nat, inside: Calls, outcome: Option<Option<Result>>)
    requires CoreInv(c) && g < |c.gens| && c.gens[g].settled.None?
    ensures StepKeeps(c, FinishSettling(c, g, inside, outcome))
  {
    hide CoreInv, Keeps, StepKeeps, With, RunCalls;
    RunCallsKeeps(c, inside);
    var c1 := RunCalls(c, inside);
    KeepsIsInv(c, c1);
    KeepsIsStep(c, c1);
    if outcome.None? {
      DirtyKeeps(c1, true);
      assert c1.(dirty := c1.dirty || true) == c1.(dirty := true);
      KeepsIsStep(c1, c1.(dirty := true));
      StepKeepsTransitive(c, c1, c1.(dirty := true));
    } else {
      StillUnsettled(c, c1, g);
      RecordKeeps(c1, g, outcome);
      StepKeepsTransitive(c, c1, FinishSettling(c, g, inside, outcome));
    }
  }

  lemma StillUnsettled(c: Core, c': Core, g: nat)
    requires Keeps(c, c') && g < |c.gens|
    ensures g < |c'.gens| && c'.gens[g].settled == c.gens[g].settled
  {
  }

  lemma DisposalEndKeeps(c: Core, dl: Download, confirmed: bool)
    requires CoreInv(c) && dl in c.unfinished
    ensures StepKeeps(c, c.(pending := c.pending - 1, unfinished := c.unfinished - multiset{dl}, dirty := c.dirty || !confirmed))
  {
  }

  lemma KeepsIsStep(c: Core, c': Core)
    requires Keeps(c, c')
    ensures StepKeeps(c, c')
  {
  }

  lemma AnyStepKeeps(c: Core, e: Event)
    requires CoreInv(c) && Enabled(c, e)
    ensures StepKeeps(c, Step(c, e))
  {
    hide CoreInv, Keeps, StepKeeps, Exec, StartSettling, FinishSettling;
    match e {
      case Calls1(call) => ExecKeeps(c, call); KeepsIsStep(c, Exec(c, call));
      case DisposalEnds(dl, confirmed) => DisposalEndKeeps(c, dl, confirmed);
      case PageClosed(page) =>
        FenceKeeps(c, false, c.fenced - multiset{page});
        assert c.(fenced := c.fenced - multiset{page}) == c.(closing := c.closing || false, fenced := c.fenced - multiset{page});
        KeepsIsStep(c, Step(c, e));
      case SettleStarts(g) => CutoffKeeps(c, g);
      case SettleEnds(g, inside, outcome) => SettleKeeps(c, g, inside, outcome);
    }
  }

  lemma StepKeepsTransitive(a: Core, b: Core, c: Core)
    requires StepKeeps(a, b) && StepKeeps(b, c)
    ensures StepKeeps(a, c)
  {
    EvolvesTransitive(a, b, c);
  }

  lemma {:induction false} RunKeeps(c: Core, es: seq<Event>)
    requires CoreInv(c)
    ensures StepKeeps(c, Run(c, es))
    decreases |es|
  {
    hide CoreInv, StepKeeps, Enabled, Step, Keeps;
    KeepsReflexive(c);
    KeepsIsStep(c, c);
    if es != [] {
      var c1 := if Enabled(c, es[0]) then Step(c, es[0]) else c;
      if Enabled(c, es[0]) { AnyStepKeeps(c, es[0]); }
      StepIsInv(c, c1);
      RunKeeps(c1, es[1..]);
      StepKeepsTransitive(c, c1, Run(c1, es[1..]));
    }
  }

  lemma StepIsInv(c: Core, c': Core)
    requires StepKeeps(c, c')
    ensures CoreInv(c')
  {
  }

  /** Each routed download got exactly one owner, in any run with any re-entrant order. */
  lemma ExactlyOneOwner(es: seq<Event>)
    ensures var c := Run(CLEAN, es);
      c.routed == c.taken + c.mine
  {
    RunKeeps(CLEAN, es);
    var c := Run(CLEAN, es);
    forall d: Download ensures c.routed[d] == (c.taken + c.mine)[d] {
    }
  }

  /** No operation was asked twice, none took what it was not asked about, and every disposal is accounted for. */
  lemma OneClaimPerGeneration(es: seq<Event>, g: nat)
    ensures var c := Run(CLEAN, es);
      && c.pending == |c.unfinished|
      && (g < |c.gens| ==> c.gens[g].took <= c.gens[g].registers <= 1)
  {
    RunKeeps(CLEAN, es);
  }

  /** A generation opens exactly when the core is clean, open, idle and has none; and a second one dirties it. */
  lemma OpensOnlyWhenClean(c: Core, page: Option<Page>)
    requires CoreInv(c)
    ensures |Begin(c, true, page).gens| > |c.gens| <==>
      !c.closing && !c.dirty && c.unfinished == multiset{} && c.current.None? && (page.Some? ==> page.value !in c.fenced)
    ensures Begin(c, true, page) != c && c.current.Some? ==> Begin(c, true, page).dirty
    ensures Begin(c, false, page) == c
  {
  }

  /** A dirty or closing core opens no generation ever again, whatever is called and however deeply. */
  lemma DirtyIsForEver(c: Core, es: seq<Event>)
    requires CoreInv(c) && (c.dirty || c.closing)
    ensures |Run(c, es).gens| == |c.gens|
  {
    RunKeeps(c, es);
  }

  /** Settling a handle twice gives the same outcome, whatever happens in between. */
  lemma SettledIsForEver(c: Core, es: seq<Event>, g: nat)
    requires CoreInv(c) && g < |c.gens| && c.gens[g].settled.Some?
    ensures g < |Run(c, es).gens| && Run(c, es).gens[g].settled == c.gens[g].settled
    ensures StartSettling(c, g) == c
  {
    RunKeeps(c, es);
  }

  /** After the cutoff no event reaches the operation, and a retired generation is out of the slot for good. */
  lemma LateEventsAreNotRegistered(c: Core, es: seq<Event>, g: nat)
    requires CoreInv(c) && g < |c.gens| && (c.gens[g].sealing || c.current != Some(g))
    ensures g < |Run(c, es).gens|
    ensures c.gens[g].sealing ==> Run(c, es).gens[g].registers == c.gens[g].registers
    ensures c.current != Some(g) ==> Run(c, es).current != Some(g)
  {
    RunKeeps(c, es);
  }

  /** An event the current operation does not take tells that operation, so it can only end terminal. */
  lemma {:induction false} UntakenEventTells(c: Core, call: Call, g: nat)
    requires CoreInv(c) && call.Emits? && c.current == Some(g)
    requires c.gens[g].sealing || c.gens[g].claim != Unclaimed || call.receipt != Took
    ensures g < |Route(c, call).gens| && Route(c, call).gens[g].told
  {
    hide CoreInv, Keeps, Accounted, With;
    var c0 := c.(routed := c.routed + multiset{call.dl});
    assert CoreInv(c0) by { SameInv(c, c0); }
    assert g < |c.gens| by { InSlot(c, g); }
    if c.gens[g].sealing {
      MineInv(c0, call.dl);
      RunCallsKeeps(Accounted(c0, call.dl), call.disposing);
      AccountedShape(c0, call.dl);
      var c1 := RunCalls(Accounted(c0, call.dl), call.disposing);
      KeepsIsInv(Accounted(c0, call.dl), c1);
      ToldKeeps(c1, g, false, false);
      WithAt(c1, g, c1.gens[g].(told := true));
      KeepsIsInv(c1, With(c1, g, c1.gens[g].(told := true)));
      RunCallsKeeps(With(c1, g, c1.gens[g].(told := true)), call.invalidating);
      StillTold(With(c1, g, c1.gens[g].(told := true)), RunCalls(With(c1, g, c1.gens[g].(told := true)), call.invalidating), g);
    } else if c.gens[g].claim != Unclaimed {
      ToldKeeps(c0, g, true, false);
      SealedShape(c0, g);
      var c1 := With(c0, g, c0.gens[g].(sealing := true, told := true));
      WithAt(c0, g, c0.gens[g].(sealing := true, told := true));
      KeepsIsInv(c0, c1);
      RunCallsKeeps(c1, call.invalidating);
      ToldThroughDisposal(c1, RunCalls(c1, call.invalidating), g, call);
    } else {
      var c1 := With(c0, g, c.gens[g].(claim := Claiming, registers := c.gens[g].registers + 1));
      ClaimingOwes(c, g, call.dl);
      OwesIsInv(c, c1, call.dl);
      RunCallsKeeps(c1, call.registering);
      KeepsIsInv(c1, RunCalls(c1, call.registering));
      RefusalTells(RunCalls(c1, call.registering), g, call, call.receipt != Refused);
    }
  }

  lemma InSlot(c: Core, g: nat)
    requires CoreInv(c) && c.current == Some(g)
    ensures g < |c.gens|
  {
  }

  lemma SameInv(c: Core, c0: Core)
    requires CoreInv(c) && c0 == c.(routed := c0.routed)
    ensures CoreInv(c0)
  {
  }

  lemma MineInv(c: Core, dl: Download)
    requires CoreInv(c)
    ensures CoreInv(Accounted(c, dl))
  {
  }

  lemma AccountedShape(c: Core, dl: Download)
    ensures Accounted(c, dl).gens == c.gens
  {
  }

  lemma StillTold(c: Core, c': Core, g: nat)
    requires Keeps(c, c') && g < |c.gens| && c.gens[g].told
    ensures g < |c'.gens| && c'.gens[g].told
  {
  }

  lemma ToldThroughDisposal(c: Core, c1: Core, g: nat, call: Call)
    requires call.Emits? && g < |c.gens| && c.gens[g].told && Keeps(c, c1)
    ensures var c' := RunCalls(Accounted(c1, call.dl), call.disposing); g < |c'.gens| && c'.gens[g].told
  {
    hide CoreInv, Keeps, Accounted;
    StillTold(c, c1, g);
    KeepsIsInv(c, c1);
    MineInv(c1, call.dl);
    AccountedShape(c1, call.dl);
    RunCallsKeeps(Accounted(c1, call.dl), call.disposing);
    StillTold(Accounted(c1, call.dl), RunCalls(Accounted(c1, call.dl), call.disposing), g);
  }

  lemma RefusalTells(c: Core, g: nat, call: Call, violation: bool)
    requires CoreInv(c) && g < |c.gens| && call.Emits?
    ensures var c' := Refuse(c, g, call, violation); g < |c'.gens| && c'.gens[g].told
  {
    hide CoreInv, Keeps, Accounted, With;
    ToldKeeps(c, g, true, violation);
    var c1 := With(c, g, c.gens[g].(sealing := true, told := true)).(dirty := c.dirty || violation);
    assert c.gens[g].(told := true, sealing := c.gens[g].sealing || true) == c.gens[g].(sealing := true, told := true);
    WithAt(c, g, c.gens[g].(sealing := true, told := true));
    KeepsIsInv(c, c1);
    RunCallsKeeps(c1, call.invalidating);
    var c2 := RunCalls(c1, call.invalidating);
    KeepsIsInv(c1, c2);
    DirtyKeeps(c2, call.invalidateThrows);
    var c3 := c2.(dirty := c2.dirty || call.invalidateThrows);
    KeepsTransitive(c1, c2, c3);
    ToldThroughDisposal(c1, c3, g, call);
  }
}

/** The core object itself; each untrusted call may re-enter any of its methods. */
module CaptureCore {
  import opened Common
  import opened M = CaptureModel

  /** The receipt read, once everything inside `registerDownload` has happened. */
  function Received(c: M.Core, g: nat, call: Call): M.Core
    requires call.Emits? && g < |c.gens|
  {
    if call.receipt == Took
    then With(c, g, c.gens[g].(claim := Claimed, took := c.gens[g].took + 1)).(taken := c.taken + multiset{call.dl})
    else M.Refuse(c, g, call, call.receipt != Refused)
  }

  function Late(c: M.Core, g: nat, call: Call): M.Core
    requires call.Emits? && g < |c.gens|
  {
    var c1 := M.RunCalls(Accounted(c, call.dl), call.disposing);
    M.RunCalls(With(c1, g, c1.gens[g].(told := true)), call.invalidating)
  }

  /** The three ways a download can meet an open slot, and the one it meets an empty one. */
  function Routed(c: M.Core, call: Call): M.Core
    requires call.Emits?
  {
    if c.current.None? || c.current.value >= |c.gens|
    then M.RunCalls(Accounted(c.(dirty := true), call.dl), call.disposing)
    else
      var g := c.current.value;
      if c.gens[g].sealing then Late(c, g, call)
      else if c.gens[g].claim != Unclaimed then Second(c, g, call)
      else First(c, g, call)
  }

  function Second(c: M.Core, g: nat, call: Call): M.Core
    requires call.Emits? && g < |c.gens|
  {
    var c1 := M.RunCalls(With(c, g, c.gens[g].(sealing := true, told := true)), call.invalidating);
    M.RunCalls(Accounted(c1, call.dl), call.disposing)
  }

  function First(c: M.Core, g: nat, call: Call): M.Core
    requires call.Emits? && g < |c.gens|
  {
    Received(M.RunCalls(With(c, g, c.gens[g].(claim := Claiming, registers := c.gens[g].registers + 1)), call.registering), g, call)
  }

  lemma RouteIsRouted(c: M.Core, call: Call)
    requires call.Emits?
    ensures M.Route(c, call) == Routed(c.(routed := c.routed + multiset{call.dl}), call)
  {
    hide M.RunCalls, M.Refuse, Accounted;
  }

  class PatchrightCore {
    var gens: seq<Generation>
    var generation: Option<nat>
    var captureDirty: bool
    var closing: bool
    var closingActivePages: multiset<Page>
    var disposalsPending: int
    var disposals: multiset<Download>
    ghost var routed: multiset<Download>
    ghost var taken: multiset<Download>
    ghost var mine: multiset<Download>

    ghost function View(): M.Core reads this {
      M.Core(gens, generation, captureDirty, closing, closingActivePages, disposalsPending, disposals, routed, taken, mine)
    }

    constructor ()
      ensures View() == CLEAN
    {
      gens, generation, captureDirty, closing := [], None, false, false;
      closingActivePages, disposalsPending, disposals := multiset{}, 0, multiset{};
      routed, taken, mine := multiset{}, multiset{}, multiset{};
    }

    /** Everything that was called from inside an untrusted call. */
    method Reenter(calls: Calls)
      modifies this
      ensures View() == M.RunCalls(old(View()), calls) && |gens| >= |old(gens)|
      decreases calls, 0
    {
      match calls {
        case Nothing =>
        case Then(first, rest) =>
          Perform(first);
          Reenter(rest);
      }
    }

    method Perform(call: Call)
      modifies this
      ensures View() == M.Exec(old(View()), call)
      decreases call, 4
    {
      match call {
        case Emits(_, _, _, _, _, _) => RouteDownload(call);
        case Begins(operation, page) => var _ := BeginGeneration(operation, page);
        case Retires(page, invalidating) => InvalidateGenerationSync(page, invalidating);
        case Shuts(invalidating) =>
          closing := true;
          InvalidateGenerationSync(None, invalidating);
        case ClosesPage(page, invalidating) =>
          closingActivePages := closingActivePages + multiset{page};
          InvalidateGenerationSync(Some(page), invalidating);
      }
    }

    /** `opens` is false when the source refuses, or has no operation to capture for. */
    method BeginGeneration(operation: bool, page: Option<Page>) returns (opens: bool)
      modifies this`gens, this`generation, this`captureDirty
      ensures View() == M.Begin(old(View()), operation, page)
      ensures opens <==> |gens| > |old(gens)|
    {
      if closing || captureDirty || disposalsPending > 0 { return false; }
      if page.Some? && page.value in closingActivePages { return false; }
      if !operation { return false; }
      if generation.Some? {
        captureDirty := true;
        return false;
      }
      generation := Some(|gens|);
      gens := gens + [Generation(page, false, Unclaimed, None, 0, 0, false)];
      opens := true;
    }

    method InvalidateGenerationSync(page: Option<Page>, invalidating: Calls)
      modifies this
      ensures View() == M.Retire(old(View()), page, invalidating)
      decreases invalidating, 1
    {
      if generation.None? || generation.value >= |gens| { return; }
      var g := generation.value;
      if page.Some? && gens[g].owner != page { return; }
      generation := None;
      gens := gens[g := gens[g].(told := true)];
      Reenter(invalidating);
    }

    /** Accounting and bound first; only then is the driver touched. */
    method DiscardUnattributed(dl: Download, disposing: Calls)
      modifies this
      ensures View() == M.RunCalls(Accounted(old(View()), dl), disposing) && |gens| >= |old(gens)|
      decreases disposing, 1
    {
      disposalsPending := disposalsPending + 1;
      disposals, mine := disposals + multiset{dl}, mine + multiset{dl};
      Reenter(disposing);
    }

    method RefuseClaim(g: nat, call: Call, violation: bool)
      requires g < |gens| && call.Emits?
      modifies this
      ensures View() == M.Refuse(old(View()), g, call, violation)
      decreases call, 2, 0
    {
      gens := gens[g := gens[g].(sealing := true, told := true)];
      if violation { captureDirty := true; }
      Reenter(call.invalidating);
      if call.invalidateThrows { captureDirty := true; }
      DiscardUnattributed(call.dl, call.disposing);
    }

    method RouteDownload(call: Call)
      requires call.Emits?
      modifies this
      ensures View() == M.Route(old(View()), call)
      decreases call, 3
    {
      RouteIsRouted(View(), call);
      hide M.Route, M.RunCalls, Received, Late, Second, First, Accounted;
      routed := routed + multiset{call.dl};
      if generation.None? || generation.value >= |gens| {
        captureDirty := true;
        DiscardUnattributed(call.dl, call.disposing);
        return;
      }
      var g := generation.value;
      if gens[g].sealing {
        RouteLate(g, call);
      } else if gens[g].claim != Unclaimed {
        RouteSecond(g, call);
      } else {
        RouteFirst(g, call);
      }
    }

    /** A duplicate, or an event re-entering while the first one's receipt is outstanding. */
    method RouteSecond(g: nat, call: Call)
      requires call.Emits? && g < |gens|
      modifies this
      ensures View() == Second(old(View()), g, call)
      decreases call, 2, 2
    {
      hide M.RunCalls, Accounted;
      gens := gens[g := gens[g].(sealing := true, told := true)];
      Reenter(call.invalidating);
      DiscardUnattributed(call.dl, call.disposing);
    }

    /** `claiming` goes up before the operation is asked. */
    method RouteFirst(g: nat, call: Call)
      requires call.Emits? && g < |gens|
      modifies this
      ensures View() == First(old(View()), g, call)
      decreases call, 2, 2
    {
      hide M.RunCalls, Received;
      gens := gens[g := gens[g].(claim := Claiming, registers := gens[g].registers + 1)];
      Reenter(call.registering);
      ReadReceipt(g, call);
    }

    /** A late event: disposed of here, and it terminalizes the generation it arrived behind. */
    method RouteLate(g: nat, call: Call)
      requires call.Emits? && g < |gens|
      modifies this
      ensures View() == Late(old(View()), g, call)
      decreases call, 2, 1
    {
      DiscardUnattributed(call.dl, call.disposing);
      gens := gens[g := gens[g].(told := true)];
      Reenter(call.invalidating);
    }

    /** Exact `true` transfers ownership; anything else is refused. */
    method ReadReceipt(g: nat, call: Call)
      requires call.Emits? && g < |gens|
      modifies this
      ensures View() == Received(old(View()), g, call)
      decreases call, 2, 1
    {
      hide M.Refuse;
      if call.receipt == Took {
        gens := gens[g := gens[g].(claim := Claimed, took := gens[g].took + 1)];
        taken := taken + multiset{call.dl};
        return;
      }
      RefuseClaim(g, call, call.receipt != Refused);
    }

    method StartSettling(g: nat)
      requires g < |gens|
      modifies this`gens
      ensures View() == M.StartSettling(old(View()), g)
    {
      if gens[g].settled.Some? || generation != Some(g) { return; }
      gens := gens[g := gens[g].(sealing := true)];
    }

    method FinishSettling(g: nat, inside: Calls, outcome: Option<Option<Result>>)
      requires g < |gens|
      modifies this
      ensures View() == M.FinishSettling(old(View()), g, inside, outcome)
    {
      Reenter(inside);
      if outcome.None? {
        captureDirty := true;
        return;
      }
      if generation == Some(g) { generation := None; }
      gens := gens[g := gens[g].(settled := outcome)];
    }
  }
}
