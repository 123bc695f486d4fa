/** What becomes of each event at the core: who is asked, who takes, who is told, and what makes the core dirty. */
module CaptureEvents {
  import opened Common
  import opened CaptureModel

  // -- what only grows --------------------------------------------------------------------------------

  predicate Grows(c: Core, c': Core) { c.mine <= c'.mine && c.taken <= c'.taken && c.fenced <= c'.fenced }

  lemma {:induction false} CallsGrow(c: Core, calls: Calls)
    ensures Grows(c, RunCalls(c, calls))
    decreases calls, 0
  {
    hide Exec;
    match calls {
      case Nothing =>
      case Then(first, rest) =>
        ExecGrows(c, first);
        CallsGrow(Exec(c, first), rest);
    }
  }

  lemma {:induction false} RetireGrows(c: Core, page: Option<Page>, invalidating: Calls)
    ensures Grows(c, Retire(c, page, invalidating))
    decreases invalidating, 1
  {
    hide RunCalls;
    if c.current.Some? && c.current.value < |c.gens| {
      var g := c.current.value;
      CallsGrow(With(c, g, c.gens[g].(told := true)).(current := None), invalidating);
    }
  }

  lemma {:induction false} RefuseGrows(c: Core, g: nat, call: Call, violation: bool)
    requires g < |c.gens| && call.Emits?
    ensures Grows(c, Refuse(c, g, call, violation)) && c.mine + multiset{call.dl} <= Refuse(c, g, call, violation).mine
    decreases call, 0
  {
    hide RunCalls, Accounted, With, Grows;
    var c0 := With(c, g, c.gens[g].(sealing := true, told := true));
    var c1 := c0.(dirty := c.dirty || violation);
    WithGrows(c, c, g, c.gens[g].(sealing := true, told := true));
    DirtyGrows(c, c0, c.dirty || violation);
    CallsGrow(c1, call.invalidating);
    var c2 := RunCalls(c1, call.invalidating);
    GrowsTransitive(c, c1, c2);
    DirtyGrows(c, c2, c2.dirty || call.invalidateThrows);
    CoreDisposes(c, c2.(dirty := c2.dirty || call.invalidateThrows), call.dl, call.disposing);
  }

  lemma DirtyGrows(a: Core, c: Core, dirty: bool)
    requires Grows(a, c)
    ensures Grows(a, c.(dirty := dirty))
  {
  }

  /** This event reaches the operation: the slot is open, unsealed, and nobody claimed it before. */
  predicate Asks(c: Core) {
    && c.current.Some? && c.current.value < |c.gens|
    && !c.gens[c.current.value].sealing && c.gens[c.current.value].claim == Unclaimed
  }

  /** Whoever does not take the download leaves it to the core: nobody else, and never nobody. */
  lemma {:induction false} RouteGives(c: Core, call: Call)
    requires call.Emits?
    ensures Grows(c, Route(c, call))
    ensures if Asks(c) && call.receipt == Took then c.taken + multiset{call.dl} <= Route(c, call).taken
            else c.mine + multiset{call.dl} <= Route(c, call).mine
    decreases call, 1
  {
    hide RunCalls, Refuse, Accounted, With, Grows;
    var c0 := c.(routed := c.routed + multiset{call.dl});
    if c.current.None? || c.current.value >= |c.gens| {
      RoutedGrows(c, call.dl);
      CoreDisposes(c, c0.(dirty := true), call.dl, call.disposing);
    } else {
      RoutedGrows(c, call.dl);
      var g := c.current.value;
      if c.gens[g].sealing {
        var c1 := RunCalls(Accounted(c0, call.dl), call.disposing);
        CoreDisposes(c, c0, call.dl, call.disposing);
        AccountedShape(c0, call.dl);
        LateGrows(c, c1, g, call.invalidating, call.dl);
      } else if c.gens[g].claim != Unclaimed {
        var c1 := With(c0, g, c.gens[g].(sealing := true, told := true));
        WithGrows(c, c0, g, c.gens[g].(sealing := true, told := true));
        CallsGrow(c1, call.invalidating);
        GrowsTransitive(c, c1, RunCalls(c1, call.invalidating));
        CoreDisposes(c, RunCalls(c1, call.invalidating), call.dl, call.disposing);
      } else {
        var claiming := c.gens[g].(claim := Claiming, registers := c.gens[g].registers + 1);
        var c1 := With(c0, g, claiming);
        WithGrows(c, c0, g, claiming);
        CallsGrow(c1, call.registering);
        var c2 := RunCalls(c1, call.registering);
        GrowsTransitive(c, c1, c2);
        if call.receipt == Took {
          OperationTakes(c, c2, g, call.dl);
        } else {
          RefuseGrows(c2, g, call, call.receipt != Refused);
          GrowsTransitive(c, c2, Refuse(c2, g, call, call.receipt != Refused));
          MineAfter(c, c2, Refuse(c2, g, call, call.receipt != Refused), call.dl);
        }
      }
    }
  }

  lemma RoutedGrows(c: Core, dl: Download)
    ensures var c0 := c.(routed := c.routed + multiset{dl}); Grows(c, c0) && Grows(c, c0.(dirty := true))
  {
  }

  lemma GrowsTransitive(a: Core, b: Core, c: Core)
    requires Grows(a, b) && Grows(b, c)
    ensures Grows(a, c)
  {
  }

  lemma MineAfter(a: Core, b: Core, c: Core, dl: Download)
    requires Grows(a, b) && b.mine + multiset{dl} <= c.mine
    ensures a.mine + multiset{dl} <= c.mine
  {
  }

  lemma WithGrows(c: Core, c0: Core, g: nat, gen: Generation)
    requires g < |c0.gens| && c0.mine == c.mine && c0.taken == c.taken && c0.fenced == c.fenced
    ensures Grows(c, With(c0, g, gen)) && |With(c0, g, gen).gens| == |c0.gens|
  {
  }

  lemma OperationTakes(a: Core, c: Core, g: nat, dl: Download)
    requires Grows(a, c) && g < |c.gens|
    ensures var c' := With(c, g, c.gens[g].(claim := Claimed, took := c.gens[g].took + 1)).(taken := c.taken + multiset{dl});
      Grows(a, c') && a.taken + multiset{dl} <= c'.taken
  {
  }

  /** The core's own disposal accounts for the download, whatever the driver lets in. */
  lemma {:induction false} CoreDisposes(a: Core, c: Core, dl: Download, disposing: Calls)
    requires Grows(a, c)
    ensures var c' := RunCalls(Accounted(c, dl), disposing); Grows(a, c') && a.mine + multiset{dl} <= c'.mine
    decreases disposing, 1
  {
    hide RunCalls;
    CallsGrow(Accounted(c, dl), disposing);
  }

  lemma {:induction false} LateGrows(a: Core, c: Core, g: nat, invalidating: Calls, dl: Download)
    requires Grows(a, c) && a.mine + multiset{dl} <= c.mine && g < |c.gens|
    ensures var c' := RunCalls(With(c, g, c.gens[g].(told := true)), invalidating); Grows(a, c') && a.mine + multiset{dl} <= c'.mine
    decreases invalidating, 1
  {
    hide RunCalls;
    CallsGrow(With(c, g, c.gens[g].(told := true)), invalidating);
  }

  lemma {:induction false} ExecGrows(c: Core, call: Call)
    ensures Grows(c, Exec(c, call))
    decreases call, 2
  {
    hide Route, Retire, Begin;
    match call {
      case Emits(_, _, _, _, _, _) => RouteGives(c, call);
      case Begins(operation, page) => BeginGrows(c, operation, page);
      case Retires(page, invalidating) => RetireGrows(c, page, invalidating);
      case Shuts(invalidating) => RetireGrows(c.(closing := true), None, invalidating);
      case ClosesPage(closing, invalidating) => RetireGrows(c.(fenced := c.fenced + multiset{closing}), Some(closing), invalidating);
    }
  }

  lemma BeginGrows(c: Core, operation: bool, page: Option<Page>)
    ensures Grows(c, Begin(c, operation, page))
  {
  }

  // -- the current generation -------------------------------------------------------------------------

  lemma EvolvesOf(c: Core, c': Core, g: nat)
    requires Keeps(c, c') && g < |c.gens|
    ensures CoreInv(c') && g < |c'.gens| && GenEvolves(c.gens[g], c'.gens[g]) && GenOk(c'.gens[g])
    ensures (c.dirty ==> c'.dirty) && (c.closing ==> c'.closing) && (c.current != Some(g) ==> c'.current != Some(g))
  {
  }

  lemma FirstAsks(c: Core, call: Call, g: nat)
    requires CoreInv(c) && call.Emits? && c.current == Some(g) && Asks(c)
    ensures var c1 := With(c.(routed := c.routed + multiset{call.dl}), g, c.gens[g].(claim := Claiming, registers := c.gens[g].registers + 1));
      && CoreInv(c1) && c1.gens[g].claim == Claiming
      && var c2 := RunCalls(c1, call.registering);
         CoreInv(c2) && g < |c2.gens| && c2.gens[g].claim == Claiming && c2.gens[g].registers == 1
  {
    hide Keeps, RunCalls;
    ClaimingOwes(c, g, call.dl);
    var c1 := With(c.(routed := c.routed + multiset{call.dl}), g, c.gens[g].(claim := Claiming, registers := c.gens[g].registers + 1));
    OwesIsInv(c, c1, call.dl);
    RunCallsKeeps(c1, call.registering);
    EvolvesOf(c1, RunCalls(c1, call.registering), g);
  }

  /** The operation is asked exactly by the first event of an open generation, and took the download exactly if it said so. */
  lemma AskedExactly(c: Core, call: Call, g: nat)
    requires CoreInv(c) && call.Emits? && c.current == Some(g)
    ensures g < |c.gens| && g < |Route(c, call).gens|
    ensures Route(c, call).gens[g].registers == c.gens[g].registers + (if Asks(c) then 1 else 0)
    ensures Route(c, call).gens[g].took == c.gens[g].took + (if Asks(c) && call.receipt == Took then 1 else 0)
  {
    hide Keeps, RunCalls, Refuse, Accounted;
    InSlot(c, g);
    RouteKeeps(c, call);
    EvolvesOf(c, Route(c, call), g);
    if Asks(c) {
      FirstAsks(c, call, g);
      var c1 := With(c.(routed := c.routed + multiset{call.dl}), g, c.gens[g].(claim := Claiming, registers := c.gens[g].registers + 1));
      var c2 := RunCalls(c1, call.registering);
      if call.receipt != Took { RefusedStaysAsked(c2, g, call, call.receipt != Refused); }
    }
  }

  lemma RefusedStaysAsked(c: Core, g: nat, call: Call, violation: bool)
    requires CoreInv(c) && g < |c.gens| && call.Emits? && c.gens[g].claim == Claiming
    ensures var c' := Refuse(c, g, call, violation);
      g < |c'.gens| && c'.gens[g].claim == Claiming && c'.gens[g].registers == 1 && c'.gens[g].took == 0 && GenOk(c'.gens[g])
    ensures violation ==> Refuse(c, g, call, violation).dirty
  {
    hide Keeps, RunCalls, Accounted, CoreInv, With;
    ToldKeeps(c, g, true, violation);
    var c1 := With(c, g, c.gens[g].(sealing := true, told := true)).(dirty := c.dirty || violation);
    assert c.gens[g].(told := true, sealing := c.gens[g].sealing || true) == c.gens[g].(sealing := true, told := true);
    EvolvesOf(c, c1, g);
    RunCallsKeeps(c1, call.invalidating);
    var c2 := RunCalls(c1, call.invalidating);
    EvolvesOf(c1, c2, g);
    DirtyKeeps(c2, call.invalidateThrows);
    var c3 := c2.(dirty := c2.dirty || call.invalidateThrows);
    EvolvesOf(c2, c3, g);
    MineInv(c3, call.dl);
    AccountedShape(c3, call.dl);
    AccountedFlags(c3, call.dl);
    RunCallsKeeps(Accounted(c3, call.dl), call.disposing);
    EvolvesOf(Accounted(c3, call.dl), RunCalls(Accounted(c3, call.dl), call.disposing), g);
    ViolationDirties(c, g, violation);
  }

  lemma ViolationDirties(c: Core, g: nat, violation: bool)
    requires g < |c.gens|
    ensures violation ==> With(c, g, c.gens[g].(sealing := true, told := true)).(dirty := c.dirty || violation).dirty
  {
  }

  lemma AccountedFlags(c: Core, dl: Download)
    ensures Accounted(c, dl).dirty == c.dirty && Accounted(c, dl).current == c.current
  {
  }

  /**
   A verb with an operation opens a generation exactly when the core is clean, open, idle and has none;
   the new one is in the slot, belongs to its page, and the first download that comes is offered to it.
   */
  lemma OpensAndTakes(c: Core, page: Option<Page>, call: Call)
    requires CoreInv(c) && call.Emits? && call.receipt == Took
    ensures var c1 := Begin(c, true, page); var g := |c.gens|;
      && (|c1.gens| > g <==> !c.closing && !c.dirty && c.unfinished == multiset{} && c.current.None? && (page.Some? ==> page.value !in c.fenced))
      && (|c1.gens| > g ==>
            && c1.current == Some(g) && c1.gens == c.gens + [c1.gens[g]] && c1.gens[g].owner == page
            && var c2 := Route(c1, call);
            && g < |c2.gens| && c2.gens[g].registers == 1 && c2.gens[g].took == 1 && c.taken + multiset{call.dl} <= c2.taken)
  {
    hide Route, CoreInv;
    OpensOnlyWhenClean(c, page);
    var c1 := Begin(c, true, page);
    if |c1.gens| > |c.gens| {
      assert CoreInv(c1) by { BeginKeeps(c, true, page); KeepsIsInv(c, c1); }
      AskedExactly(c1, call, |c.gens|);
      RouteGives(c1, call);
    }
  }

  // -- the cutoff ---------------------------------------------------------------------------------------

  /** The cutoff seals the current, unsettled generation, and leaves everything else as it was. */
  lemma CutoffSeals(c: Core, g: nat)
    requires CoreInv(c) && c.current == Some(g) && c.gens[g].settled.None?
    ensures Enabled(c, SettleStarts(g))
    ensures var c' := Step(c, SettleStarts(g));
      c'.gens == c.gens[g := c.gens[g].(sealing := true)] && c' == c.(gens := c'.gens)
  {
  }

  /**
   From the cutoff on, however the run goes: the operation is not asked again, and a download emitted
   while the generation is still current is late, told to the operation and disposed of by the core.
   */
  lemma CutoffIsFinal(c: Core, g: nat, es: seq<Event>, call: Call)
    requires CoreInv(c) && c.current == Some(g) && c.gens[g].settled.None? && call.Emits?
    ensures var c1 := Run(Step(c, SettleStarts(g)), es);
      && g < |c1.gens| && c1.gens[g].sealing && c1.gens[g].registers == c.gens[g].registers
      && (c1.current == Some(g) ==>
            && var c2 := Exec(c1, call);
            && g < |c2.gens| && c2.gens[g].registers == c.gens[g].registers && c2.gens[g].took == c1.gens[g].took
            && c2.gens[g].told && c1.mine + multiset{call.dl} <= c2.mine)
  {
    hide Run, Route, StepKeeps;
    CutoffSeals(c, g);
    CutoffKeeps(c, g);
    var c0 := Step(c, SettleStarts(g));
    StepIsInv(c, c0);
    RunKeeps(c0, es);
    var c1 := Run(c0, es);
    StepIsInv(c0, c1);
    SealedForGood(c0, c1, g);
    if c1.current == Some(g) {
      AskedExactly(c1, call, g);
      UntakenEventTells(c1, call, g);
      RouteGives(c1, call);
    }
  }

  lemma SealedForGood(c: Core, c': Core, g: nat)
    requires StepKeeps(c, c') && g < |c.gens| && c.gens[g].sealing
    ensures g < |c'.gens| && c'.gens[g].sealing && c'.gens[g].registers == c.gens[g].registers
  {
  }

  // -- invalidation and settlement ----------------------------------------------------------------------

  /** A retirement that means the current generation tells its operation and leaves it no slot, whatever calls back. */
  lemma RetireTells(c: Core, page: Option<Page>, invalidating: Calls, g: nat)
    requires CoreInv(c) && c.current == Some(g) && (page.None? || c.gens[g].owner == page)
    ensures var c' := Retire(c, page, invalidating); g < |c'.gens| && c'.gens[g].told && c'.current != Some(g)
  {
    hide Keeps, RunCalls;
    VacatedKeeps(c, g);
    var c1 := With(c, g, c.gens[g].(told := true)).(current := None);
    EvolvesOf(c, c1, g);
    RunCallsKeeps(c1, invalidating);
    EvolvesOf(c1, RunCalls(c1, invalidating), g);
  }

  /** One that means another page's generation changes nothing. */
  lemma RetireSparesOthers(c: Core, page: Page, invalidating: Calls, g: nat)
    requires c.current == Some(g) && g < |c.gens| && c.gens[g].owner != Some(page)
    ensures Retire(c, Some(page), invalidating) == c
  {
  }

  /** Closing the core refuses every successor before the operation is told. */
  lemma ShutsForGood(c: Core, invalidating: Calls, es: seq<Event>)
    requires CoreInv(c)
    ensures var c' := Exec(c, Shuts(invalidating)); c'.closing && |Run(c', es).gens| == |c.gens|
  {
    hide Keeps, Retire, Run, CoreInv, StepKeeps;
    ExecKeeps(c, Shuts(invalidating));
    KeepsIsInv(c, Exec(c, Shuts(invalidating)));
    ClosingFirst(c, invalidating);
    DirtyIsForEver(Exec(c, Shuts(invalidating)), es);
  }

  lemma ClosingFirst(c: Core, invalidating: Calls)
    requires CoreInv(c)
    ensures var c' := Exec(c, Shuts(invalidating)); c'.closing && |c'.gens| == |c.gens|
  {
    hide Retire;
    var c1 := c.(closing := true);
    RetireKeeps(c1, None, invalidating);
  }

  /** A page that began to close opens no generation until its close has returned, whatever calls back meanwhile. */
  lemma ClosingPageRefuses(c: Core, page: Page, invalidating: Calls, operation: bool)
    requires CoreInv(c)
    ensures var c' := Exec(c, ClosesPage(page, invalidating)); page in c'.fenced && Begin(c', operation, Some(page)) == c'
  {
    hide RunCalls;
    RetireGrows(c.(fenced := c.fenced + multiset{page}), Some(page), invalidating);
    assert page in c.fenced + multiset{page};
  }

  /** A settlement records what the operation said and empties its slot; one that got no answer dirties the core. */
  lemma SettlementRecords(c: Core, g: nat, inside: Calls, outcome: Option<Option<Result>>)
    requires CoreInv(c) && g < |c.gens| && c.gens[g].settled.None?
    ensures var c' := FinishSettling(c, g, inside, outcome);
      if outcome.None? then c'.dirty && g < |c'.gens| && c'.gens[g].settled.None?
      else g < |c'.gens| && c'.gens[g].settled == outcome && c'.current != Some(g)
  {
    hide Keeps, RunCalls;
    RunCallsKeeps(c, inside);
    StillUnsettled(c, RunCalls(c, inside), g);
    EvolvesOf(c, RunCalls(c, inside), g);
  }

  // -- what makes the core dirty ------------------------------------------------------------------------

  /** A download with no generation to belong to, a broken receipt and an unconfirmed disposal each cost the core its trust. */
  lemma OrphanDirties(c: Core, call: Call)
    requires CoreInv(c) && call.Emits? && c.current.None?
    ensures Route(c, call).dirty
  {
    hide Keeps, RunCalls;
    var c1 := Accounted(c.(routed := c.routed + multiset{call.dl}).(dirty := true), call.dl);
    RunCallsKeeps(c1, call.disposing);
    DirtyStays(c1, RunCalls(c1, call.disposing));
  }

  lemma DirtyStays(c: Core, c': Core)
    requires Keeps(c, c') && c.dirty
    ensures c'.dirty
  {
  }

  lemma BrokenReceiptDirties(c: Core, call: Call, g: nat)
    requires CoreInv(c) && call.Emits? && c.current == Some(g) && Asks(c)
    requires call.receipt == NotBoolean || call.receipt == Threw
    ensures Route(c, call).dirty
  {
    hide Keeps, RunCalls, Refuse;
    FirstAsks(c, call, g);
    var c1 := With(c.(routed := c.routed + multiset{call.dl}), g, c.gens[g].(claim := Claiming, registers := c.gens[g].registers + 1));
    RefusedStaysAsked(RunCalls(c1, call.registering), g, call, true);
  }

  /** With nothing calling back, a clean core stays clean exactly when the event had a slot and its receipt was a plain answer. */
  lemma LeafDirtiesIff(c: Core, dl: Download, receipt: Receipt)
    requires CoreInv(c) && !c.dirty
    ensures Route(c, Emits(dl, receipt, Nothing, Nothing, false, Nothing)).dirty <==>
      c.current.None? || (Asks(c) && (receipt == NotBoolean || receipt == Threw))
  {
    var call := Emits(dl, receipt, Nothing, Nothing, false, Nothing);
    if c.current.Some? {
      InSlot(c, c.current.value);
      var g := c.current.value;
      var c0 := c.(routed := c.routed + multiset{dl});
      if Asks(c) {
        var c1 := With(c0, g, c.gens[g].(claim := Claiming, registers := c.gens[g].registers + 1));
        NothingRuns(c1);
        assert !c1.dirty;
        if receipt != Took { LeafRefusal(c1, g, call, receipt != Refused); }
      } else {
        NothingRuns(Accounted(c0, dl));
        NothingRuns(With(c0, g, c.gens[g].(told := true)));
        NothingRuns(With(c0, g, c.gens[g].(sealing := true, told := true)));
        LeafLate(c0, g, call);
      }
    } else {
      NothingRuns(Accounted(c.(routed := c.routed + multiset{dl}).(dirty := true), dl));
    }
  }

  lemma NothingRuns(c: Core)
    ensures RunCalls(c, Nothing) == c
  {
  }

  lemma LeafRefusal(c: Core, g: nat, call: Call, violation: bool)
    requires g < |c.gens| && !c.dirty && call.Emits? && call.invalidating == Nothing && call.disposing == Nothing && !call.invalidateThrows
    ensures Refuse(c, g, call, violation).dirty == violation
  {
    var c1 := With(c, g, c.gens[g].(sealing := true, told := true)).(dirty := c.dirty || violation);
    NothingRuns(c1);
    NothingRuns(Accounted(c1.(dirty := c1.dirty || false), call.dl));
  }

  lemma LeafLate(c: Core, g: nat, call: Call)
    requires g < |c.gens| && !c.dirty && call.Emits? && call.invalidating == Nothing && call.disposing == Nothing
    ensures !RunCalls(Accounted(RunCalls(With(c, g, c.gens[g].(sealing := true, told := true)), call.invalidating), call.dl), call.disposing).dirty
    ensures var c1 := RunCalls(Accounted(c, call.dl), call.disposing);
      g < |c1.gens| && !RunCalls(With(c1, g, c1.gens[g].(told := true)), call.invalidating).dirty
  {
    var c1 := With(c, g, c.gens[g].(sealing := true, told := true));
    NothingRuns(c1);
    NothingRuns(Accounted(c1, call.dl));
    NothingRuns(Accounted(c, call.dl));
    NothingRuns(With(Accounted(c, call.dl), g, Accounted(c, call.dl).gens[g].(told := true)));
  }

  lemma UnconfirmedDisposalDirties(c: Core, dl: Download, confirmed: bool)
    requires dl in c.unfinished
    ensures Enabled(c, DisposalEnds(dl, confirmed))
    ensures var c' := Step(c, DisposalEnds(dl, confirmed));
      c'.pending == c.pending - 1 && c'.unfinished + multiset{dl} == c.unfinished && (c'.dirty <==> c.dirty || !confirmed)
  {
  }
}
