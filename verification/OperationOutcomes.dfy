/** What an operation comes to, in terms of what happened to it. */
module OperationOutcomes {
  import opened Common
  import opened ReservationLedger
  import opened OperationModel

  // -- histories ------------------------------------------------------------------------------------

  function Before(op: Op, es: seq<Event>, k: nat): Op
    requires k <= |es|
  {
    Run(op, es[..k])
  }

  lemma {:induction false} RunSnoc(op: Op, es: seq<Event>, e: Event)
    ensures Run(op, es + [e]) == (var op1 := Run(op, es); if Enabled(op1, e) then Step(op1, e) else op1)
    decreases |es|
  {
    hide Step, Enabled;
    if es == [] {
      assert es + [e] == [e] && [e][1..] == [];
    } else {
      assert (es + [e])[0] == es[0] && (es + [e])[1..] == es[1..] + [e];
      RunSnoc(if Enabled(op, es[0]) then Step(op, es[0]) else op, es[1..], e);
    }
  }

  /** A download event reached the operation while it was open. */
  ghost predicate Counted(op: Op, es: seq<Event>) {
    exists k | 0 <= k < |es| :: es[k].Registers? && Before(op, es, k).state == Open
  }

  ghost predicate LandsAt(op: Op, es: seq<Event>, k: nat)
    requires k < |es|
  {
    es[k].Lands? && Before(op, es, k).state == Open
  }

  /** The last landing noted while the operation was open was a pdf. */
  ghost predicate LandedOnPdf(op: Op, es: seq<Event>) {
    exists k: nat | k < |es| ::
      && LandsAt(op, es, k) && es[k].pdf
      && forall j: nat | k < j < |es| :: !LandsAt(op, es, j)
  }

  /** The part of an operation that its outcome is made of. */
  datatype Notes = Notes(state: OpState, events: nat, landedPdf: bool, job: Job)

  function NotesOf(op: Op): Notes { Notes(op.state, op.events, op.landedPdf, op.job) }

  lemma ReleaseNotes(op: Op)
    ensures NotesOf(TryRelease(op)) == NotesOf(op)
  {
    hide MayRelease;
  }

  lemma AnswerNotes(op: Op, answer: Answer)
    ensures NotesOf(Answered(op, answer)) == NotesOf(op)
  {
  }

  lemma GoneNotes(op: Op, closeOwned: bool)
    ensures NotesOf(ArtifactGone(op, closeOwned)) == NotesOf(op)
  {
    hide TryRelease;
    var op1 := op.(waitingForArtifact := false);
    ReleaseNotes(op1.(refusalPending := false));
    ReleaseNotes(op1.(refusalPending := true));
    if op1.storeClose.Some? { ReleaseNotes(op1.(cleanupFailed := op1.cleanupFailed || op1.storeClose.value)); }
  }

  lemma RetiringNotes(op: Op, reason: Reason)
    requires !Terminal(op)
    ensures NotesOf(Retire(op, reason)) == NotesOf(op).(state := Invalidated(reason))
  {
  }

  lemma InvalidationNotes(op: Op, reason: Reason, answer: Answer)
    ensures NotesOf(Invalidate(op, reason, answer)) == if Terminal(op) then NotesOf(op) else NotesOf(op).(state := Invalidated(reason))
  {
    hide TryRelease, Answered, Retire, NotesOf;
    if !Terminal(op) {
      RetiringNotes(op, reason);
      AnswerNotes(Retire(op, reason), answer);
      ReleaseNotes(Answered(Retire(op, reason), answer));
    }
  }

  /** What an undecided operation becomes, and by which events. */
  function Decision(op: Op, e: Event): Option<OpState> {
    match e
    case Registers(_) => if op.state == Open && op.events > 0 then Some(Invalidated(MultipleArtifacts)) else None
    case AccessorsEnd(_) => Some(Invalidated(CaptureFailed))
    case Delivers(_) => if op.job == Captured(false) then Some(Invalidated(StoreFailure)) else None
    case Commits => Some(Committed(CommitOutcome(op)))
    case Invalidates(r, _) => Some(Invalidated(r))
    case ArtifactDiscarded(closeOwned, _) => Some(Invalidated(if closeOwned then RuntimeInvalidated else LifecycleRace))
    case _ => None
  }

  /** What one event adds to the notes. */
  function Noting(op: Op, e: Event): Notes {
    Notes(
      if Terminal(op) then op.state
      else if Decision(op, e).Some? then Decision(op, e).value
      else if e.Seals? then Sealing else op.state,
      op.events + (if e.Registers? && op.state == Open then 1 else 0),
      if e.Lands? && op.state == Open then e.pdf else op.landedPdf,
      op.job)
  }

  lemma JobNotes(op: Op, e: Event)
    requires Enabled(op, e) && (e.AccessorsEnd? || e.CaptureBegins? || e.CaptureSettles? || e.JobEnds?)
    ensures NotesOf(Step(op, e)).(job := op.job) == Noting(op, e)
  {
    hide Invalidate, TryRelease;
    if e.AccessorsEnd? { InvalidationNotes(op, CaptureFailed, e.answer); }
    if e.JobEnds? { ReleaseNotes(op.(job := NoJob, active := op.active - 1)); }
  }

  lemma DeliveryNotes(op: Op, e: Event)
    requires Enabled(op, e) && e.Delivers?
    ensures NotesOf(Step(op, e)).(job := op.job) == Noting(op, e)
  {
    hide Invalidate, Answered;
    AnswerNotes(op, e.answer);
    InvalidationNotes(op, StoreFailure, e.answer);
  }

  lemma RegistrationNotes(op: Op, e: Event)
    requires e.Registers?
    ensures NotesOf(Step(op, e)).(job := op.job) == Noting(op, e)
  {
    hide Invalidate;
    if op.state == Open && op.events > 0 {
      var counted := op.(events := op.events + 1);
      InvalidationNotes(counted, MultipleArtifacts, e.answer);
      assert Step(op, e) == Invalidate(counted, MultipleArtifacts, e.answer);
    }
  }

  lemma CommitNotes(op: Op, e: Event)
    requires Enabled(op, e) && (e.Lands? || e.Seals? || e.Commits?)
    ensures NotesOf(Step(op, e)).(job := op.job) == Noting(op, e)
  {
    hide TryRelease, CommitOutcome, Invalidate, Register, AccessorsOver, Deliver, EndJob, NoteDiscarded, SettleStoreClose, FinishCleanup, CaptureSettled, BeginCapture;
    if e.Commits? { ReleaseNotes(op.(state := Committed(CommitOutcome(op)), waitingForArtifact := CommitOutcome(op) == Available)); }
  }

  lemma EndingNotes(op: Op, e: Event)
    requires Enabled(op, e) && (e.Invalidates? || e.ArtifactDiscarded? || e.StoreCloses? || e.CleanupSettles?)
    ensures NotesOf(Step(op, e)).(job := op.job) == Noting(op, e)
  {
    hide Invalidate, NoteDiscarded, SettleStoreClose, FinishCleanup;
    match e {
      case Invalidates(r, a) => InvalidationNotes(op, r, a);
      case ArtifactDiscarded(c, a) => DiscardNotes(op, c, a);
      case StoreCloses(failed) => CloseNotes(op, failed);
      case CleanupSettles(ok) => CloseNotes(op, ok);
    }
  }

  lemma StepNotes(op: Op, e: Event)
    requires Enabled(op, e)
    ensures NotesOf(Step(op, e)).(job := op.job) == Noting(op, e)
  {
    hide Noting, Step, NotesOf, Enabled;
    match e {
      case Registers(_) => RegistrationNotes(op, e);
      case Lands(_) => CommitNotes(op, e);
      case AccessorsEnd(_) => JobNotes(op, e);
      case CaptureBegins => JobNotes(op, e);
      case CaptureSettles(_) => JobNotes(op, e);
      case Delivers(_) => DeliveryNotes(op, e);
      case JobEnds => JobNotes(op, e);
      case Seals => CommitNotes(op, e);
      case Commits => CommitNotes(op, e);
      case Invalidates(_, _) => EndingNotes(op, e);
      case ArtifactDiscarded(_, _) => EndingNotes(op, e);
      case StoreCloses(_) => EndingNotes(op, e);
      case CleanupSettles(_) => EndingNotes(op, e);
    }
  }

  lemma DiscardNotes(op: Op, closeOwned: bool, answer: Answer)
    ensures var reason := if closeOwned then RuntimeInvalidated else LifecycleRace;
      NotesOf(NoteDiscarded(op, closeOwned, answer)) == if Terminal(op) then NotesOf(op) else NotesOf(op).(state := Invalidated(reason))
  {
    hide Invalidate, ArtifactGone, NotesOf;
    var reason := if closeOwned then RuntimeInvalidated else LifecycleRace;
    InvalidationNotes(op, reason, answer);
    GoneNotes(op, closeOwned);
    GoneNotes(Invalidate(op, reason, answer), closeOwned);
  }

  lemma CloseNotes(op: Op, failed: bool)
    ensures NotesOf(SettleStoreClose(op, failed)) == NotesOf(op) && NotesOf(FinishCleanup(op, failed)) == NotesOf(op)
  {
  }

  lemma PrefixOfSnoc(op: Op, es: seq<Event>, e: Event, k: nat)
    requires k <= |es|
    ensures Before(op, es + [e], k) == Before(op, es, k)
  {
    assert (es + [e])[..k] == es[..k];
  }

  lemma CountedSnoc(op: Op, es: seq<Event>, e: Event)
    ensures Counted(op, es + [e]) <==> Counted(op, es) || (e.Registers? && Run(op, es).state == Open)
  {
    hide Run;
    forall k: nat | k <= |es| ensures Before(op, es + [e], k) == Before(op, es, k) { PrefixOfSnoc(op, es, e, k); }
    assert es[..|es|] == es && (es + [e])[|es|] == e;
    if Counted(op, es) {
      var k :| 0 <= k < |es| && es[k].Registers? && Before(op, es, k).state == Open;
      assert (es + [e])[k] == es[k];
    }
  }

  lemma LandedSnoc(op: Op, es: seq<Event>, e: Event)
    ensures LandedOnPdf(op, es + [e]) <==>
      if e.Lands? && Run(op, es).state == Open then e.pdf else LandedOnPdf(op, es)
  {
    hide Run, Before;
    var all := es + [e];
    forall k: nat | k < |es| ensures LandsAt(op, all, k) == LandsAt(op, es, k) && all[k] == es[k] { PrefixOfSnoc(op, es, e, k); }
    assert LandsAt(op, all, |es|) <==> e.Lands? && Run(op, es).state == Open by { LandsLast(op, es, e); }
    assert all[|es|] == e;
    if LandsAt(op, all, |es|) {
      assert e.pdf ==> LandedOnPdf(op, all);
    } else if LandedOnPdf(op, es) {
      var k: nat :| k < |es| && LandsAt(op, es, k) && es[k].pdf && forall j: nat | k < j < |es| :: !LandsAt(op, es, j);
      assert LandsAt(op, all, k) && all[k].pdf;
    }
  }

  lemma LandsLast(op: Op, es: seq<Event>, e: Event)
    ensures LandsAt(op, es + [e], |es|) <==> e.Lands? && Run(op, es).state == Open
  {
    hide Run;
    assert (es + [e])[..|es|] == es;
  }

  /** The two things an operation remembers are what its history says. */
  lemma {:induction false} NotesAreHistory(id: Id, owner: Owner, es: seq<Event>)
    ensures var op := Run(NewOp(id, owner), es);
      && (op.events > 0 <==> Counted(NewOp(id, owner), es))
      && (op.landedPdf <==> LandedOnPdf(NewOp(id, owner), es))
    decreases |es|
  {
    hide Step, Enabled, Counted, LandedOnPdf;
    var start := NewOp(id, owner);
    if es == [] {
      NothingNoted(start);
    } else {
      var n := |es| - 1;
      NotesAreHistory(id, owner, es[..n]);
      assert es[..n] + [es[n]] == es;
      RunSnoc(start, es[..n], es[n]);
      CountedSnoc(start, es[..n], es[n]);
      LandedSnoc(start, es[..n], es[n]);
      var op := Run(start, es[..n]);
      if Enabled(op, es[n]) { StepNotes(op, es[n]); } else { OpenTakesNotes(op, es[n]); }
    }
  }

  lemma NothingNoted(op: Op)
    ensures !Counted(op, []) && !LandedOnPdf(op, []) && Run(op, []) == op
  {
  }

  lemma OpenTakesNotes(op: Op, e: Event)
    ensures e.Registers? || e.Lands? ==> Enabled(op, e)
  {
  }

  /**
   The outcome of a commit is decided by history alone: available exactly when a download event was
   counted, the unsupported inline pdf exactly when none was and the page's last landing was one.
   */
  lemma OutcomeIsExact(id: Id, owner: Owner, es: seq<Event>)
    ensures var start := NewOp(id, owner); var op := Run(start, es);
      op.state.Committed? ==>
        && (op.state.outcome == Available <==> Counted(start, es))
        && (op.state.outcome == InlinePdfUnsupported <==> !Counted(start, es) && LandedOnPdf(start, es))
        && (op.state.outcome == Nothing <==> !Counted(start, es) && !LandedOnPdf(start, es))
  {
    hide Run, Counted, LandedOnPdf, OpCore;
    NewOpInv(id, owner);
    RunIsExact(NewOp(id, owner), es);
    NotesAreHistory(id, owner, es);
    InvIsDecisive(Run(NewOp(id, owner), es));
  }

  lemma InvIsDecisive(op: Op)
    requires OpInv(op)
    ensures Decisive(op)
  {
  }

  // -- sealing --------------------------------------------------------------------------------------

  lemma StaysShut(op: Op, e: Event)
    requires Enabled(op, e) && op.state != Open
    ensures var op' := Step(op, e);
      op'.state != Open && op'.events == op.events && op'.landedPdf == op.landedPdf && (e.Registers? ==> !Register(op, e.answer).1)
  {
    hide Step;
    StepNotes(op, e);
  }

  /** Once sealed, nothing more is counted, noted or accepted, however the run goes on. */
  lemma {:induction false} SealIsFinal(op: Op, es: seq<Event>)
    ensures Step(op, Seals).state != Open
    ensures op.state != Open ==>
      Run(op, es).events == op.events && Run(op, es).landedPdf == op.landedPdf && Receipts(op, es) == 0
    decreases |es|
  {
    hide Step, Enabled;
    SealShuts(op);
    if op.state != Open && es != [] {
      if Enabled(op, es[0]) {
        StaysShut(op, es[0]);
        SealIsFinal(Step(op, es[0]), es[1..]);
      } else {
        SealIsFinal(op, es[1..]);
      }
    }
  }

  lemma SealShuts(op: Op)
    ensures Enabled(op, Seals) && Step(op, Seals).state != Open
  {
  }

  // -- decisions ------------------------------------------------------------------------------------

  /** Exactly these events decide an undecided operation, each as it must; a second download event is one of them. */
  lemma DecisionIsExact(op: Op, e: Event)
    requires OpInv(op) && Enabled(op, e) && !Terminal(op)
    ensures Terminal(Step(op, e)) <==> Decision(op, e).Some?
    ensures Decision(op, e).Some? ==> Step(op, e).state == Decision(op, e).value
    ensures e.Commits? ==> Decision(op, e) == Some(Committed(if op.events > 0 then Available else if op.landedPdf then InlinePdfUnsupported else Nothing))
  {
    hide Step;
    StepNotes(op, e);
  }

  // -- every wait has its end -----------------------------------------------------------------------

  /** A deletion notice ends the wait for the artifact; a close's own notice leaves only the close's result to wait for. */
  lemma DeletionEndsWait(op: Op, closeOwned: bool, answer: Answer)
    requires OpInv(op) && Terminal(op) && op.waitingForArtifact
    ensures var op' := NoteDiscarded(op, closeOwned, answer);
      && !op'.waitingForArtifact
      && op'.refusalPending == (closeOwned && op.storeClose.None?)
      && op'.cleanupFailed == (op.cleanupFailed || (closeOwned && op.storeClose == Some(true)))
  {
  }

  /** The close's result answers a refusal: a clean one ends the wait, a failed one keeps the id for good. */
  lemma CloseEndsRefusal(op: Op, failed: bool)
    requires OpInv(op)
    ensures var op' := SettleStoreClose(op, failed);
      && op'.storeClose == Some(failed) && !op'.refusalPending
      && op'.cleanupFailed == (op.cleanupFailed || (op.refusalPending && failed))
      && op'.waitingForArtifact == (op.waitingForArtifact && !(op.refusalPending && !failed))
  {
  }

  // -- nobody is stuck ------------------------------------------------------------------------------

  ghost predicate Leads(op: Op, op': Op) { exists es :: Run(op, es) == op' }

  lemma LeadsToItself(op: Op)
    ensures Leads(op, op)
  {
    assert Run(op, []) == op;
  }

  lemma LeadsOn(op: Op, mid: Op, e: Event)
    requires Leads(op, mid) && Enabled(mid, e)
    ensures Leads(op, Step(mid, e))
  {
    hide Run, Step, Enabled;
    var es :| Run(op, es) == mid;
    RunSnoc(op, es, e);
    assert Run(op, es + [e]) == Step(mid, e);
  }

  /** Nothing was lost for good: no deletion failed, and the driver did not lose its copy. */
  predicate Sane(op: Op) { OpInv(op) && !op.cleanupFailed && !op.cleanupUnconfirmed }

  /** Decided, its staging job done. */
  predicate Quiet(op: Op) { Sane(op) && Terminal(op) && op.job == NoJob }

  lemma EndingFinishes(start: Op, op: Op)
    requires Leads(start, op) && Sane(op) && Terminal(op) && op.job == Ending
    ensures exists op' :: Leads(start, op') && Quiet(op')
  {
    hide Leads;
    LeadsOn(start, op, JobEnds);
    StepKeepsOpInv(op, JobEnds);
  }

  lemma DeliveryFinishes(start: Op, op: Op)
    requires Leads(start, op) && Sane(op) && Terminal(op) && op.job.Captured?
    ensures exists op' :: Leads(start, op') && Quiet(op')
  {
    hide Leads;
    LeadsOn(start, op, Delivers(Clean));
    StepKeepsOpInv(op, Delivers(Clean));
    EndingFinishes(start, Step(op, Delivers(Clean)));
  }

  lemma JobFinishes(start: Op, op: Op)
    requires Leads(start, op) && Sane(op) && Terminal(op)
    ensures exists op' :: Leads(start, op') && Quiet(op')
  {
    hide Leads;
    match op.job {
      case NoJob =>
      case Asking =>
        LeadsOn(start, op, AccessorsEnd(Clean));
        StepKeepsOpInv(op, AccessorsEnd(Clean));
        EndingFinishes(start, Step(op, AccessorsEnd(Clean)));
      case Capturing =>
        LeadsOn(start, op, CaptureSettles(false));
        StepKeepsOpInv(op, CaptureSettles(false));
        DeliveryFinishes(start, Step(op, CaptureSettles(false)));
      case Captured(_) => DeliveryFinishes(start, op);
      case Ending => EndingFinishes(start, op);
    }
  }

  lemma QuietReleases(start: Op, op: Op)
    requires Leads(start, op) && Quiet(op)
    ensures exists op' :: Leads(start, op') && op'.released
  {
    hide Leads, Step, Enabled;
    QuietNotified(op);
    LeadsOn(start, op, ArtifactDiscarded(false, Clean));
    var op1 := Step(op, ArtifactDiscarded(false, Clean));
    QuietAnswered(op1);
    LeadsOn(start, op1, StoreCloses(false));
    var op2 := Step(op1, StoreCloses(false));
    QuietCleaned(op2);
    LeadsOn(start, op2, CleanupSettles(true));
  }

  lemma QuietNotified(op: Op)
    requires Quiet(op)
    ensures var e := ArtifactDiscarded(false, Clean);
      Enabled(op, e) && Quiet(Step(op, e)) && !Step(op, e).waitingForArtifact
  {
    StepKeepsOpInv(op, ArtifactDiscarded(false, Clean));
  }

  lemma QuietAnswered(op: Op)
    requires Quiet(op) && !op.waitingForArtifact
    ensures var e := StoreCloses(false);
      && Enabled(op, e) && Quiet(Step(op, e)) && !Step(op, e).waitingForArtifact && !Step(op, e).refusalPending
  {
    StepKeepsOpInv(op, StoreCloses(false));
  }

  lemma QuietCleaned(op: Op)
    requires Quiet(op) && !op.waitingForArtifact && !op.refusalPending
    ensures Enabled(op, CleanupSettles(true)) && Step(op, CleanupSettles(true)).released
  {
    StepKeepsOpInv(op, CleanupSettles(true));
  }

  /** Unless something was lost for good, some continuation of any reachable operation gives its id back. */
  lemma NothingIsStuck(id: Id, owner: Owner, es: seq<Event>)
    ensures var op := Run(NewOp(id, owner), es);
      !op.cleanupFailed && !op.cleanupUnconfirmed ==> exists op' :: Leads(op, op') && op'.released
  {
    hide Run, Leads;
    NewOpInv(id, owner);
    RunIsExact(NewOp(id, owner), es);
    var op := Run(NewOp(id, owner), es);
    if !op.cleanupFailed && !op.cleanupUnconfirmed {
      LeadsToItself(op);
      var mid := Invalidate(op, RuntimeInvalidated, Clean);
      DecidedSanely(op);
      LeadsOn(op, op, Invalidates(RuntimeInvalidated, Clean));
      JobFinishes(op, mid);
      var op1 :| Leads(op, op1) && Quiet(op1);
      QuietReleases(op, op1);
    }
  }

  lemma DecidedSanely(op: Op)
    requires Sane(op)
    ensures var e := Invalidates(RuntimeInvalidated, Clean);
      && Enabled(op, e) && Step(op, e) == Invalidate(op, RuntimeInvalidated, Clean)
      && Sane(Step(op, e)) && Terminal(Step(op, e))
  {
    StepKeepsOpInv(op, Invalidates(RuntimeInvalidated, Clean));
  }
}
