/**
 One capture operation of `src/artifacts/index.ts`: open -> sealing -> committed | invalidated, and the
 single point (`#tryRelease`) where its identity is given back.

 One event below is one synchronous segment of the source. What the store answered to a discard, and
 what the driver answered, are parameters: they may be anything the store or the driver can say.
 */
module OperationModel {
  import opened Common
  import opened ReservationLedger

  type Controller = nat

  datatype Owner = ConsumerOwned(consumer: Consumer) | DriveOwned(consumer: Consumer, controller: Controller)

  /** The store's three answers to a discard. */
  datatype Answer = Clean | Refused | Failed

  datatype Reason =
    | CaptureFailed | SettleTimeout | LifecycleRace | MultipleArtifacts
    | WriteFailed | StoreFailure | RuntimeInvalidated | ConfigInvalid | CleanupFailedReason

  datatype Outcome = Available | InlinePdfUnsupported | Nothing

  datatype OpState = Open | Sealing | Committed(outcome: Outcome) | Invalidated(reason: Reason)

  datatype Cleanup = Idle | Running | Confirmed | CleanupFailed

  /** Where the one staging job stands: its untrusted accessors, the store's copy, its two `finally`s. */
  datatype Job = NoJob | Asking | Capturing | Captured(available: bool) | Ending

  /** `releases` and `disposals` are history: how often the id was freed and the driver copy disposed of. */
  datatype Op = Op(
    id: Id, owner: Owner, state: OpState, landedPdf: bool,
    events: nat, active: nat, job: Job,
    download: bool, provisional: bool,
    cleanup: Cleanup, cleanupUnconfirmed: bool, cleanupFailed: bool,
    waitingForArtifact: bool, refusalPending: bool,
    storeClose: Option<bool>,
    released: bool, releases: nat, disposals: nat)

  function NewOp(id: Id, owner: Owner): Op {
    Op(id, owner, Open, false, 0, 0, NoJob, false, false, Idle, false, false, false, false, None, false, 0, 0)
  }

  predicate Terminal(op: Op) { op.state.Committed? || op.state.Invalidated? }

  /** Every condition the release point waits for. */
  predicate MayRelease(op: Op) {
    && Terminal(op)
    && op.active == 0
    && !op.cleanupFailed
    && !op.waitingForArtifact
    && !op.refusalPending
    && op.cleanup != Running
    && !op.cleanupUnconfirmed
  }

  function TryRelease(op: Op): Op {
    if !op.released && MayRelease(op) then op.(released := true, releases := op.releases + 1) else op
  }

  function StartCleanup(op: Op): Op {
    if op.cleanup != Idle || !op.download then op
    else op.(cleanup := Running, download := false, disposals := op.disposals + 1)
  }

  /** `invalidate` up to its call into the store. */
  function Retire(op: Op, reason: Reason): Op
    requires !Terminal(op)
  {
    StartCleanup(op.(state := Invalidated(reason))).(provisional := false)
  }

  /** `#discardStaged`, once the store has answered. */
  function Answered(op: Op, answer: Answer): Op {
    match answer
    case Clean => op.(provisional := false)
    case Failed => op.(provisional := false, cleanupFailed := true)
    case Refused =>
      if op.storeClose.Some? then op.(provisional := false, cleanupFailed := op.cleanupFailed || op.storeClose.value)
      else op.(provisional := false, waitingForArtifact := true, refusalPending := true)
  }

  function Invalidate(op: Op, reason: Reason, answer: Answer): Op {
    if Terminal(op) then op else TryRelease(Answered(Retire(op, reason), answer))
  }

  /** The receipt is true exactly for the first event of an open operation. */
  function Register(op: Op, answer: Answer): (Op, bool) {
    if op.state != Open then (op, false)
    else
      var counted := op.(events := op.events + 1);
      if counted.events > 1 then (Invalidate(counted, MultipleArtifacts, answer), false)
      else (counted.(active := op.active + 1, download := true, job := Asking), true)
  }

  function NoteLanding(op: Op, pdf: bool): Op {
    if op.state != Open then op else op.(landedPdf := pdf)
  }

  function EndStage(op: Op): Op { op.(job := Ending, download := false) }

  /** The accessors failed, or were stopped because the outcome is already decided. */
  function AccessorsOver(op: Op, answer: Answer): Op
    requires op.job == Asking
  {
    EndStage(Invalidate(op, CaptureFailed, answer))
  }

  function BeginCapture(op: Op): Op
    requires op.job == Asking && !Terminal(op)
  {
    op.(job := Capturing)
  }

  function CaptureSettled(op: Op, available: bool): Op
    requires op.job == Capturing
  {
    op.(job := Captured(available))
  }

  /** The staging continuation after the store's capture. */
  function Deliver(op: Op, answer: Answer): Op
    requires op.job.Captured?
  {
    var ok := op.job.available;
    if Terminal(op) then EndStage(if ok then Answered(op, answer) else op)
    else if ok then EndStage(op.(provisional := true))
    else EndStage(Invalidate(op, StoreFailure, answer))
  }

  function EndJob(op: Op): Op
    requires op.job == Ending && op.active > 0
  {
    TryRelease(op.(job := NoJob, active := op.active - 1))
  }

  function Seal(op: Op): Op {
    if Terminal(op) then op else op.(state := Sealing)
  }

  function CommitOutcome(op: Op): Outcome {
    if op.provisional then Available
    else if op.events == 0 && op.landedPdf then InlinePdfUnsupported
    else Nothing
  }

  /** The commit half of `seal`: its jobs have settled and nothing invalidated it meanwhile. */
  function Commit(op: Op): Op
    requires op.state == Sealing && op.active == 0
  {
    TryRelease(op.(state := Committed(CommitOutcome(op)), waitingForArtifact := CommitOutcome(op) == Available))
  }

  /** What `#noteArtifactDiscarded` does after a possible invalidation. */
  function ArtifactGone(op: Op, closeOwned: bool): Op {
    var op1 := op.(waitingForArtifact := false);
    TryRelease(
      if !closeOwned then op1.(refusalPending := false)
      else if op1.storeClose.Some? then op1.(cleanupFailed := op1.cleanupFailed || op1.storeClose.value)
      else op1.(refusalPending := true))
  }

  /** `answer` is what the store says to the discard nested inside the notification. */
  function NoteDiscarded(op: Op, closeOwned: bool, answer: Answer): Op {
    if !Terminal(op) then
      ArtifactGone(Invalidate(op, if closeOwned then RuntimeInvalidated else LifecycleRace, answer), closeOwned)
    else if !op.waitingForArtifact then op
    else ArtifactGone(op, closeOwned)
  }

  function SettleStoreClose(op: Op, failed: bool): Op {
    var told := op.(storeClose := Some(failed));
    if !op.refusalPending then told
    else
      var answered := told.(refusalPending := false);
      TryRelease(if failed then answered.(cleanupFailed := true) else answered.(waitingForArtifact := false))
  }

  function FinishCleanup(op: Op, confirmed: bool): Op {
    if op.cleanup != Running then op
    else if confirmed then TryRelease(op.(cleanup := Confirmed))
    else op.(cleanup := CleanupFailed, cleanupUnconfirmed := true)
  }

  // ---------------------------------------------------------------------------------------------
  // Runs of one operation
  // ---------------------------------------------------------------------------------------------

  datatype Event =
    | Registers(answer: Answer)
    | Lands(pdf: bool)
    | AccessorsEnd(answer: Answer)
    | CaptureBegins
    | CaptureSettles(available: bool)
    | Delivers(answer: Answer)
    | JobEnds
    | Seals
    | Commits
    | Invalidates(reason: Reason, answer: Answer)
    | ArtifactDiscarded(closeOwned: bool, answer: Answer)
    | StoreCloses(failed: bool)
    | CleanupSettles(confirmed: bool)

  /** A close-owned notification comes from inside a close, which refuses every nested discard. */
  predicate Enabled(op: Op, e: Event) {
    match e
    case AccessorsEnd(_) => op.job == Asking
    case CaptureBegins => op.job == Asking && !Terminal(op)
    case CaptureSettles(_) => op.job == Capturing
    case Delivers(_) => op.job.Captured?
    case JobEnds => op.job == Ending && op.active > 0
    case Commits => op.state == Sealing && op.active == 0
    case ArtifactDiscarded(closeOwned, answer) => closeOwned ==> answer == Refused
    case _ => true
  }

  function Step(op: Op, e: Event): Op
    requires Enabled(op, e)
  {
    match e
    case Registers(a) => Register(op, a).0
    case Lands(pdf) => NoteLanding(op, pdf)
    case AccessorsEnd(a) => AccessorsOver(op, a)
    case CaptureBegins => BeginCapture(op)
    case CaptureSettles(ok) => CaptureSettled(op, ok)
    case Delivers(a) => Deliver(op, a)
    case JobEnds => EndJob(op)
    case Seals => Seal(op)
    case Commits => Commit(op)
    case Invalidates(r, a) => Invalidate(op, r, a)
    case ArtifactDiscarded(c, a) => NoteDiscarded(op, c, a)
    case StoreCloses(failed) => SettleStoreClose(op, failed)
    case CleanupSettles(ok) => FinishCleanup(op, ok)
  }

  function Run(op: Op, es: seq<Event>): Op
    decreases |es|
  {
    if es == [] then op
    else Run(if Enabled(op, es[0]) then Step(op, es[0]) else op, es[1..])
  }

  predicate Holding(op: Op) { op.job == Asking || op.job == Capturing || op.job.Captured? }

  /** No release is early and none is lost; no id is freed twice; no driver copy is disposed of twice. */
  predicate Exact(op: Op) {
    && (op.released <==> MayRelease(op))
    && op.releases == (if op.released then 1 else 0)
    && op.disposals == (if op.cleanup == Idle then 0 else 1)
  }

  predicate OpCore(op: Op) {
    && Exact(op)
    && op.active == (if op.job == NoJob then 0 else 1)
    && (op.job != NoJob || op.provisional ==> op.events > 0)
    && (op.cleanupUnconfirmed <==> op.cleanup == CleanupFailed)
    && (op.cleanup != Idle ==> op.state.Invalidated?)
    // the driver's copy has exactly one keeper until the staging job lets go of it
    && (op.download ==> Holding(op) && !Terminal(op))
    && (Holding(op) ==> if Terminal(op) then op.disposals == 1 else op.download)
    && (op.provisional ==> !op.state.Invalidated? && !Holding(op))
    && (op.state.Committed? ==> op.active == 0 && (op.provisional <==> op.state.outcome == Available))
    && (op.state.Committed? && op.state.outcome != Available ==> op.released)
    && (!Terminal(op) ==> !op.waitingForArtifact && !op.refusalPending && !op.cleanupFailed)
    && (op.refusalPending ==> op.storeClose.None?)
    // whoever waits waits for its committed artifact, for the close to answer a refusal, or for ever
    && (op.waitingForArtifact ==> op.state == Committed(Available) || op.refusalPending || op.cleanupFailed)
  }

  /** An accepted event either staged its artifact or ended the operation; the outcome says what was seen. */
  predicate Decisive(op: Op) {
    && (!Terminal(op) && op.events > 0 && !Holding(op) ==> op.provisional)
    && (op.state.Committed? ==>
          op.state.outcome == if op.events > 0 then Available else if op.landedPdf then InlinePdfUnsupported else Nothing)
  }

  predicate OpInv(op: Op) { OpCore(op) && Decisive(op) }

  lemma NewOpInv(id: Id, owner: Owner)
    ensures OpInv(NewOp(id, owner))
  {
  }

  /** What no event may undo: a decision, a release, an accepted event, a disposal. */
  predicate Follows(op: Op, op': Op) {
    && op'.id == op.id && op'.owner == op.owner
    && (Terminal(op) ==> op'.state == op.state)
    && (op.released ==> op'.released && op'.releases == op.releases)
    && op.events <= op'.events
    && op.disposals <= op'.disposals
  }

  lemma InvalidateFromCore(op: Op, reason: Reason, answer: Answer)
    requires OpCore(op) && (Terminal(op) ==> Decisive(op))
    ensures var op' := Invalidate(op, reason, answer);
      && OpInv(op') && Terminal(op') && Follows(op, op')
      && op'.events == op.events && op'.job == op.job && op'.active == op.active
      && op'.storeClose == op.storeClose
      && (!Terminal(op) && answer == Refused ==>
            if op.storeClose.None? then op'.waitingForArtifact
            else op.storeClose.value ==> op'.cleanupFailed)
  {
    if !Terminal(op) {
      var retired := Retire(op, reason);
      assert !retired.released && retired.releases == 0 && Terminal(retired);
      var told := Answered(retired, answer);
      assert !told.released && told.releases == 0 && told.disposals == retired.disposals;
      assert Exact(TryRelease(told));
    }
  }

  lemma InvalidateKeepsOpInv(op: Op, reason: Reason, answer: Answer)
    requires OpInv(op)
    ensures var op' := Invalidate(op, reason, answer);
      && OpInv(op') && Terminal(op') && Follows(op, op')
      && op'.events == op.events && op'.job == op.job && op'.active == op.active
      && op'.storeClose == op.storeClose
      && (!Terminal(op) && answer == Refused ==>
            if op.storeClose.None? then op'.waitingForArtifact
            else op.storeClose.value ==> op'.cleanupFailed)
  {
    hide Invalidate, Follows, OpCore, Decisive;
    InvalidateFromCore(op, reason, answer);
  }

  /** Forgetting the staged record first, as the notification does, changes nothing about the outcome. */
  lemma ForgettingFirst(op: Op, reason: Reason, answer: Answer)
    requires OpInv(op) && !Terminal(op)
    ensures OpCore(op.(provisional := false))
    ensures Invalidate(op.(provisional := false), reason, answer) == Invalidate(op, reason, answer)
  {
  }

  lemma ArtifactGoneKeepsOpInv(op: Op, closeOwned: bool)
    requires OpInv(op) && Terminal(op)
    requires closeOwned ==> op.waitingForArtifact || op.storeClose == Some(false) || (op.storeClose == Some(true) && op.cleanupFailed)
    ensures OpInv(ArtifactGone(op, closeOwned)) && Follows(op, ArtifactGone(op, closeOwned))
  {
  }

  lemma NoteDiscardedKeepsOpInv(op: Op, closeOwned: bool, answer: Answer)
    requires OpInv(op) && (closeOwned ==> answer == Refused)
    ensures OpInv(NoteDiscarded(op, closeOwned, answer)) && Follows(op, NoteDiscarded(op, closeOwned, answer))
  {
    hide OpInv;
    if !Terminal(op) {
      var reason := if closeOwned then RuntimeInvalidated else LifecycleRace;
      InvalidateKeepsOpInv(op, reason, answer);
      ArtifactGoneKeepsOpInv(Invalidate(op, reason, answer), closeOwned);
    } else if op.waitingForArtifact {
      ArtifactGoneKeepsOpInv(op, closeOwned);
    }
  }

  lemma RegisterKeepsOpInv(op: Op, answer: Answer)
    requires OpInv(op)
    ensures var (op', receipt) := Register(op, answer);
      && OpInv(op') && Follows(op, op')
      && (receipt ==> op.events == 0 && op'.events > 0)
  {
    if op.state == Open && op.events > 0 {
      InvalidateKeepsOpInv(op.(events := op.events + 1), MultipleArtifacts, answer);
    }
  }

  lemma DeliverKeepsOpInv(op: Op, answer: Answer)
    requires OpInv(op) && op.job.Captured?
    ensures OpInv(Deliver(op, answer)) && Follows(op, Deliver(op, answer))
  {
    if !Terminal(op) && !op.job.available {
      InvalidateKeepsOpInv(op, StoreFailure, answer);
    }
  }

  lemma JobKeepsOpInv(op: Op, answer: Answer, available: bool)
    requires OpInv(op)
    ensures op.job == Asking ==> OpInv(AccessorsOver(op, answer)) && Follows(op, AccessorsOver(op, answer))
    ensures op.job == Asking && !Terminal(op) ==> OpInv(BeginCapture(op)) && Follows(op, BeginCapture(op))
    ensures op.job == Capturing ==> OpInv(CaptureSettled(op, available)) && Follows(op, CaptureSettled(op, available))
    ensures op.job == Ending ==> OpInv(EndJob(op)) && Follows(op, EndJob(op))
  {
    InvalidateKeepsOpInv(op, CaptureFailed, answer);
  }

  lemma SealKeepsOpInv(op: Op)
    requires OpInv(op)
    ensures OpInv(Seal(op)) && Follows(op, Seal(op))
    ensures op.state == Sealing && op.active == 0 ==>
      && OpInv(Commit(op)) && Follows(op, Commit(op))
      && (Commit(op).waitingForArtifact <==> CommitOutcome(op) == Available)
  {
  }

  lemma SettleKeepsOpInv(op: Op, failed: bool)
    requires OpInv(op)
    ensures OpInv(SettleStoreClose(op, failed)) && Follows(op, SettleStoreClose(op, failed))
    ensures OpInv(FinishCleanup(op, failed)) && Follows(op, FinishCleanup(op, failed))
  {
  }

  /** Every event, in every order, keeps release exact and undoes nothing. */
  lemma StepKeepsOpInv(op: Op, e: Event)
    requires OpInv(op) && Enabled(op, e)
    ensures OpInv(Step(op, e)) && Follows(op, Step(op, e))
  {
    hide Invalidate, TryRelease, Deliver, NoteDiscarded, Register, AccessorsOver, EndJob, Seal, Commit, SettleStoreClose, FinishCleanup;
    match e {
      case Registers(a) => RegisterKeepsOpInv(op, a);
      case Lands(_) =>
      case AccessorsEnd(a) => JobKeepsOpInv(op, a, false);
      case CaptureBegins => JobKeepsOpInv(op, Clean, false);
      case CaptureSettles(ok) => JobKeepsOpInv(op, Clean, ok);
      case Delivers(a) => DeliverKeepsOpInv(op, a);
      case JobEnds => JobKeepsOpInv(op, Clean, false);
      case Seals => SealKeepsOpInv(op);
      case Commits => SealKeepsOpInv(op);
      case Invalidates(r, a) => InvalidateKeepsOpInv(op, r, a);
      case ArtifactDiscarded(c, a) => NoteDiscardedKeepsOpInv(op, c, a);
      case StoreCloses(failed) => SettleKeepsOpInv(op, failed);
      case CleanupSettles(ok) => SettleKeepsOpInv(op, ok);
    }
  }

  /** The identity release is exact over every run of an operation. */
  lemma {:induction false} RunIsExact(op: Op, es: seq<Event>)
    requires OpInv(op)
    ensures OpInv(Run(op, es))
    decreases |es|
  {
    hide Step, Enabled;
    if es != [] {
      if Enabled(op, es[0]) {
        StepKeepsOpInv(op, es[0]);
      }
      RunIsExact(if Enabled(op, es[0]) then Step(op, es[0]) else op, es[1..]);
    }
  }

  /** A decided outcome is final, a release is never taken back, and each happens at most once. */
  lemma {:induction false} DecisionsAreFinal(op: Op, es: seq<Event>)
    requires OpInv(op)
    ensures Terminal(op) ==> Run(op, es).state == op.state
    ensures op.released ==> Run(op, es).released && Run(op, es).releases == op.releases
    ensures op.disposals <= Run(op, es).disposals <= 1
    ensures Run(op, es).releases <= 1
    decreases |es|
  {
    hide Step, Enabled;
    if es != [] {
      var op1 := if Enabled(op, es[0]) then Step(op, es[0]) else op;
      if Enabled(op, es[0]) {
        StepKeepsOpInv(op, es[0]);
      }
      DecisionsAreFinal(op1, es[1..]);
    }
  }

  /**
   At most one registered event is ever accepted, and it is accepted before any refusal: the receipts
   of a run are a single true at the front, or none.
   */
  function Receipts(op: Op, es: seq<Event>): nat
    decreases |es|
  {
    if es == [] then 0
    else if !Enabled(op, es[0]) then Receipts(op, es[1..])
    else (if es[0].Registers? && Register(op, es[0].answer).1 then 1 else 0) + Receipts(Step(op, es[0]), es[1..])
  }

  lemma RegisterIsStep(op: Op, answer: Answer)
    ensures Enabled(op, Registers(answer)) && Step(op, Registers(answer)) == Register(op, answer).0
  {
  }

  lemma {:induction false} AtMostOneReceipt(op: Op, es: seq<Event>)
    requires OpInv(op)
    ensures Receipts(op, es) + (if op.events == 0 then 0 else 1) <= 1
    decreases |es|
  {
    hide Step, Enabled;
    if es != [] {
      if Enabled(op, es[0]) {
        StepKeepsOpInv(op, es[0]);
        if es[0].Registers? {
          RegisterKeepsOpInv(op, es[0].answer);
          RegisterIsStep(op, es[0].answer);
        }
        AtMostOneReceipt(Step(op, es[0]), es[1..]);
      } else {
        AtMostOneReceipt(op, es[1..]);
      }
    }
  }

  /** Retiring an operation whose staging still holds the driver's copy hands that copy to disposal. */
  lemma InvalidationDisposes(op: Op, reason: Reason, answer: Answer)
    requires OpInv(op) && !Terminal(op)
    ensures var op' := Invalidate(op, reason, answer);
      && op'.state == Invalidated(reason)
      && !op'.download && !op'.provisional
      && (Holding(op) <==> op'.cleanup == Running)
      && op'.disposals == (if Holding(op) then 1 else 0)
  {
  }

  /** A clean close answers every refusal it caused; a failed one keeps the identity for good. */
  lemma CloseAnswersRefusals(op: Op, failed: bool)
    requires OpInv(op) && Terminal(op) && op.refusalPending
    requires op.active == 0 && op.cleanup != Running && !op.cleanupUnconfirmed && !op.cleanupFailed
    ensures SettleStoreClose(op, failed).released <==> !failed
  {
  }

  /**
   Without the rule on close-owned notifications the release would not be exact: a close that could
   answer a nested discard with "clean" would free the id and then latch a refusal on a freed operation.
   */
  lemma CloseMustRefuseNestedDiscards()
    ensures exists op :: OpInv(op) && !Exact(NoteDiscarded(op, true, Clean))
  {
    var op := NewOp(0, ConsumerOwned(0));
    assert OpInv(op) && !Exact(NoteDiscarded(op, true, Clean));
  }
}

/** The operation object itself: private fields, moved in place by each synchronous segment. */
module Operation {
  import opened Common
  import opened ReservationLedger
  import opened M = OperationModel

  class ArtifactOperation {
    const artifactId: Id
    const owner: Owner
    var state: OpState
    var landedPdf: bool
    var events: nat
    var active: nat
    ghost var job: Job
    var download: bool
    var provisional: bool
    var cleanup: Cleanup
    var cleanupUnconfirmed: bool
    var cleanupFailed: bool
    var waitingForArtifact: bool
    var refusalPending: bool
    var storeClose: Option<bool>
    var released: bool
    ghost var releases: nat
    ghost var disposals: nat

    ghost function View(): Op reads this {
      Op(artifactId, owner, state, landedPdf, events, active, job, download, provisional, cleanup,
         cleanupUnconfirmed, cleanupFailed, waitingForArtifact, refusalPending, storeClose, released, releases, disposals)
    }

    constructor (id: Id, owner: Owner)
      ensures View() == NewOp(id, owner) && OpInv(View())
    {
      artifactId, this.owner, state, landedPdf := id, owner, Open, false;
      events, active, job, download, provisional := 0, 0, NoJob, false, false;
      cleanup, cleanupUnconfirmed, cleanupFailed := Idle, false, false;
      waitingForArtifact, refusalPending, storeClose := false, false, None;
      released, releases, disposals := false, 0, 0;
    }

    method TryRelease()
      modifies this`released, this`releases
      ensures View() == M.TryRelease(old(View()))
    {
      if released { return; }
      if state == Open || state == Sealing { return; }
      if active > 0 || cleanupFailed || waitingForArtifact || refusalPending { return; }
      if cleanup == Running || cleanupUnconfirmed { return; }
      released := true;
      releases := releases + 1;
    }

    method StartCleanup()
      modifies this`cleanup, this`download, this`disposals
      ensures View() == M.StartCleanup(old(View()))
    {
      if cleanup != Idle || !download { return; }
      cleanup := Running;
      download := false;
      disposals := disposals + 1;
    }

    method DiscardStaged(answer: Answer)
      modifies this`provisional, this`cleanupFailed, this`waitingForArtifact, this`refusalPending
      ensures View() == Answered(old(View()), answer)
    {
      provisional := false;
      if answer == Failed { cleanupFailed := true; return; }
      if answer != Refused { return; }
      if storeClose.Some? {
        if storeClose.value { cleanupFailed := true; }
        return;
      }
      waitingForArtifact := true;
      refusalPending := true;
    }

    method Invalidate(reason: Reason, answer: Answer)
      requires OpCore(View()) && (M.Terminal(View()) ==> Decisive(View()))
      modifies this
      ensures View() == M.Invalidate(old(View()), reason, answer) && OpInv(View())
    {
      InvalidateFromCore(View(), reason, answer);
      if state.Committed? || state.Invalidated? { return; }
      state := M.Invalidated(reason);
      StartCleanup();
      DiscardStaged(answer);
      TryRelease();
    }

    /** `answer` is the store's, should a second event retire this operation. */
    method RegisterDownload(answer: Answer) returns (receipt: bool)
      requires OpInv(View())
      modifies this
      ensures (View(), receipt) == Register(old(View()), answer) && OpInv(View())
    {
      StepKeepsOpInv(View(), Registers(answer));
      if state != Open { return false; }
      events := events + 1;
      if events > 1 {
        Invalidate(MultipleArtifacts, answer);
        return false;
      }
      active := active + 1;
      download := true;
      job := Asking;
      receipt := true;
    }

    method DeliverCapture(available: bool, answer: Answer)
      requires OpInv(View()) && job == Captured(available)
      modifies this
      ensures View() == Deliver(old(View()), answer) && OpInv(View())
    {
      StepKeepsOpInv(View(), Delivers(answer));
      hide OpInv, Follows, M.Invalidate, M.Answered, M.TryRelease;
      if available {
        if state.Committed? || state.Invalidated? {
          DiscardStaged(answer);
        } else {
          provisional := true;
        }
      } else if state == Open || state == Sealing {
        Invalidate(StoreFailure, answer);
      }
      download := false;
      job := Ending;
    }

    method EndJob()
      requires OpInv(View()) && job == Ending && active > 0
      modifies this
      ensures View() == M.EndJob(old(View())) && OpInv(View())
    {
      StepKeepsOpInv(View(), JobEnds);
      job := NoJob;
      active := active - 1;
      TryRelease();
    }

    method Commit() returns (outcome: Outcome)
      requires OpInv(View()) && state == Sealing && active == 0
      modifies this
      ensures View() == M.Commit(old(View())) && OpInv(View())
      ensures state == Committed(outcome)
    {
      StepKeepsOpInv(View(), Commits);
      if provisional {
        outcome := Available;
      } else if events == 0 && landedPdf {
        outcome := InlinePdfUnsupported;
      } else {
        outcome := Nothing;
      }
      state := Committed(outcome);
      waitingForArtifact := outcome == Available;
      TryRelease();
    }

    method NoteArtifactDiscarded(closeOwned: bool, answer: Answer)
      requires OpInv(View()) && (closeOwned ==> answer == Refused)
      modifies this
      ensures View() == NoteDiscarded(old(View()), closeOwned, answer) && OpInv(View())
    {
      ghost var op := View();
      NoteDiscardedKeepsOpInv(op, closeOwned, answer);
      hide OpInv, Follows, M.Invalidate, M.TryRelease;
      if state == Open || state == Sealing {
        ghost var reason := if closeOwned then RuntimeInvalidated else LifecycleRace;
        ForgettingFirst(op, reason, answer);
        provisional := false;
        assert View() == op.(provisional := false);
        Invalidate(if closeOwned then RuntimeInvalidated else LifecycleRace, answer);
      } else if !waitingForArtifact {
        return;
      }
      ClearWait(closeOwned);
      TryRelease();
    }

    /** The physical wait is over; a close-owned deletion still owes the one close result. */
    method ClearWait(closeOwned: bool)
      modifies this`waitingForArtifact, this`refusalPending, this`cleanupFailed
      ensures M.TryRelease(View()) == ArtifactGone(old(View()), closeOwned)
    {
      waitingForArtifact := false;
      if closeOwned {
        if storeClose.Some? {
          if storeClose.value { cleanupFailed := true; }
        } else {
          refusalPending := true;
        }
      } else {
        refusalPending := false;
      }
    }

    method SettleStoreClose(failed: bool)
      requires OpInv(View())
      modifies this
      ensures View() == M.SettleStoreClose(old(View()), failed) && OpInv(View())
    {
      ghost var op := View();
      SettleKeepsOpInv(op, failed);
      hide OpInv, Follows, M.TryRelease, M.FinishCleanup;
      storeClose := Some(failed);
      if !refusalPending { return; }
      refusalPending := false;
      if failed {
        cleanupFailed := true;
        assert View() == op.(storeClose := Some(failed), refusalPending := false, cleanupFailed := true);
      } else {
        waitingForArtifact := false;
        assert View() == op.(storeClose := Some(failed), refusalPending := false, waitingForArtifact := false);
      }
      TryRelease();
    }

    method FinishCleanup(confirmed: bool)
      requires OpInv(View())
      modifies this
      ensures View() == M.FinishCleanup(old(View()), confirmed) && OpInv(View())
    {
      ghost var op := View();
      SettleKeepsOpInv(op, confirmed);
      hide OpInv, Follows, M.TryRelease, M.SettleStoreClose;
      if cleanup != Running { return; }
      cleanup := if confirmed then Confirmed else CleanupFailed;
      if confirmed {
        assert View() == op.(cleanup := Confirmed);
        TryRelease();
        return;
      }
      cleanupUnconfirmed := true;
    }
  }
}
