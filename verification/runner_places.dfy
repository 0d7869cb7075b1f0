/** Which phase the row shows while the controller stands at each step, over every schedule, and which
    steps write a phase. */
module RunnerPlaces {
  import opened Common
  import opened RunnerModels
  import opened RunnerGit
  import opened RunnerCi
  import opened RunnerMachine

  /** The phase each step of the controller stands in. */
  predicate Placed(w: World) {
    var phase := w.row.phase;
    match w.pc
    case ToClaimed => phase == CreatedRun
    case WorkerCheck(p) => phase == p && p in {ClaimedIssue, FixRequested}
    case Booking(p, _, _) => phase == p && p in {ClaimedIssue, FixRequested}
    case Launching(p, _) => phase == p && p in {ClaimedIssue, FixRequested}
    case AgentWorking(_) => phase == WorkerRunning
    case Committing(_, _) => phase == WorkerRunning
    case RecoverCheck => phase == WorkerRunning
    case Recommitting(_, _, _) => phase == WorkerRunning
    case SavingHead(_) => phase == WorkerRunning
    case Completing => phase == WorkerRunning
    case Returning(_, _) => phase == WorkerRunning
    case PublishCheck(_) => phase == WorkerComplete
    case Publishing => phase == WorkerComplete
    case ToCi => phase == WorkerComplete
    case CiCheck(_) => phase == CiWaiting
    case CiWait(_) => phase == CiWaiting
    case SavingCi(_, _) => phase == CiWaiting
    case ToReview(_) => phase == CiWaiting
    case FixCheck(_, _) => phase == CiWaiting
    case RequestingFix(p, _, _, _) => phase == CiWaiting && p == CiWaiting
    case ReviewCheck => phase == ReviewRunning
    case ClearingStale(_, _) => phase == ReviewRunning
    case ReviewBudget(_, _) => phase == ReviewRunning
    case ReviewBooking(_, _, _) => phase == ReviewRunning
    case Reviewing(_, _) => phase == ReviewRunning
    case Finishing(_, _, _) => phase == ReviewRunning
    case SavingReview(_, _, _) => phase == ReviewRunning
    case Deciding(_, _, _) => phase == ReviewRunning
    case SavingRounds(_, _) => phase == ReviewRunning
    case ToFix(_) => phase == ReviewRunning
    case ToReady(_) => phase == ReviewRunning
    case DeliverCheck(_) => phase == OwnerMerged
    case ToCompleted(_) => phase == OwnerMerged
    case BlockWriting => !TerminalPhase(phase)
    case BlockMoving => !TerminalPhase(phase)
    case _ => true
  }

  predicate WaitsForCi(pc: Pc) {
    pc.CiCheck? || pc.CiWait? || pc.SavingCi? || pc.ToReview? || pc.FixCheck? || pc.RequestingFix?
  }

  /** What an operator's write may have put over the phase the controller stands in: a stop or an owner
      merge anywhere, a fix request while CI is awaited. */
  predicate Overlaid(w: World) {
    w.row.phase in {StoppedRun, OwnerMerged} || (w.row.phase == FixRequested && WaitsForCi(w.pc))
  }

  predicate NumbersHold(w: World) {
    && (w.pc.Booking? ==> w.pc.number == w.row.invocations + 1)
    && (w.pc.ReviewBooking? ==> w.pc.number == w.row.invocations + 1)
    && (w.pc.RequestingFix? ==> w.pc.phase in {CiWaiting, BlockedRun})
  }

  predicate PlaceCore(w: World) { (Placed(w) || Overlaid(w)) && NumbersHold(w) }

  ghost predicate Places(w: World) {
    && PlaceCore(w)
    && forall id :: id in w.operators && w.operators[id].RecoverFixing? ==> w.operators[id].phase in {CiWaiting, BlockedRun}
  }

  /** A row that an earlier version of the loop blocked on a failed CI run. The present loop turns such a
      failure into a fix request and never writes that error. */
  predicate LegacyBlocked(cfg: Config, w: World) {
    && w.row.phase == BlockedRun && w.row.head.Some? && w.row.pr.Some?
    && w.row.lastError.Some? && w.row.lastError.value in cfg.ciErrors
    && w.row.invocations <= cfg.maxInvocations && w.row.fixRounds <= cfg.maxFixRounds
    && w.pc.Idle? && w.operators == map[]
  }

  /** Where runs start: created by the loop, or found blocked. */
  predicate Start(cfg: Config, w: World) { w == NEW_RUN || LegacyBlocked(cfg, w) }

  // ---------------------------------------------------------------------------------------------
  // Phase writes

  /** The phase the controller's next step writes. */
  function ControllerWrites(w: World): Option<RunPhase> {
    match w.pc
    case ToClaimed => Some(ClaimedIssue)
    case Launching(_, _) => Some(WorkerRunning)
    case Completing => Some(WorkerComplete)
    case Returning(rounds, _) => Some(if rounds == 0 then ClaimedIssue else FixRequested)
    case ToCi => Some(CiWaiting)
    case ToReview(_) => Some(ReviewRunning)
    case RequestingFix(phase, head, rounds, _) =>
      if FixExpected(w.row, phase, head, rounds) then Some(FixRequested) else None
    case ToFix(_) => Some(FixRequested)
    case ToReady(_) => Some(ReadyForOwner)
    case ToCompleted(_) => Some(CompletedRun)
    case StopMoving => Some(StoppedRun)
    case BlockMoving => Some(BlockedRun)
    case _ => None
  }

  /** The phase a command's next step writes. */
  function OperatorWrites(row: WorkColumns, o: Operator): Option<RunPhase> {
    match o
    case ResumeMoving(_) => Some(OwnerMerged)
    case RecoverPassed(head, _) => if RecoveryExpected(row, head) then Some(ReviewRunning) else None
    case RecoverFixing(phase, head, rounds, _) => if FixExpected(row, phase, head, rounds) then Some(FixRequested) else None
    case StopWriting => Some(StoppedRun)
    case _ => None
  }

  function Writes(w: World, step: Step): Option<RunPhase> {
    match step
    case Advance(_) => ControllerWrites(w)
    case Operate(id, _, _) => if id in w.operators then OperatorWrites(w.row, w.operators[id]) else None
    case _ => None
  }

  /** The phase after a step that may write it. */
  predicate WritesThat(w: World, w': World, written: Option<RunPhase>) {
    w'.row.phase == if written.Some? then written.value else w.row.phase
  }

  predicate Controlled(w: World, w': World) {
    PlaceCore(w') && w'.operators == w.operators && WritesThat(w, w', ControllerWrites(w))
    && (Placed(w) || ControllerWrites(w).Some? ==> Placed(w'))
  }

  lemma AttemptFrame(cfg: Config, w: World, parent: Sha, result: WorkerResult, env: Env)
    requires w.tree.Some?
    ensures var w' := Attempt(cfg, w, parent, result, env).0; w' == w.(tree := w'.tree, made := w'.made)
  {
    hide ValidateAndCommit;
  }

  lemma CommitStaysPlaced(cfg: Config, w: World, env: Env)
    requires PlaceCore(w) && (w.pc.Committing? || w.pc.Recommitting?)
    ensures Controlled(w, WorkerSteps(cfg, w, env))
  {
    hide Attempt;
    if w.tree.Some? {
      AttemptFrame(cfg, w, w.pc.parent, w.pc.result, env);
    }
  }

  /** Up to the agent's result. */
  predicate Launches(pc: Pc) { pc.WorkerCheck? || pc.Booking? || pc.Launching? || pc.AgentWorking? }

  lemma LaunchStaysPlaced(cfg: Config, w: World, env: Env)
    requires PlaceCore(w) && Launches(w.pc)
    ensures Controlled(w, WorkerSteps(cfg, w, env))
  {
    hide WorkerMayStart;
  }

  lemma WorkerStaysPlaced(cfg: Config, w: World, env: Env)
    requires PlaceCore(w) && WorkerPc(w.pc) && !Launches(w.pc) && !w.pc.Committing? && !w.pc.Recommitting?
    ensures Controlled(w, WorkerSteps(cfg, w, env))
  {
    hide ValidateRecovered;
  }

  lemma PublishStaysPlaced(cfg: Config, w: World, env: Env)
    requires PlaceCore(w) && CiPc(w.pc) && !WaitsForCi(w.pc)
    ensures Controlled(w, CiSteps(cfg, w, env))
  {
    hide OnTree;
  }

  lemma CiStaysPlaced(cfg: Config, w: World, env: Env)
    requires PlaceCore(w) && WaitsForCi(w.pc) && !w.pc.RequestingFix?
    ensures Controlled(w, CiSteps(cfg, w, env))
  {
    hide Judge, CleanOn, OnTree;
  }

  lemma FixStaysPlaced(cfg: Config, w: World, env: Env)
    requires PlaceCore(w) && w.pc.RequestingFix?
    ensures Controlled(w, CiSteps(cfg, w, env))
  {
  }

  /** Up to the reviewer's answer. */
  predicate OpensReview(pc: Pc) {
    pc.ReviewCheck? || pc.ClearingStale? || pc.ReviewBudget? || pc.ReviewBooking? || pc.Reviewing? || pc.Finishing?
  }

  lemma ReviewOpensPlaced(cfg: Config, w: World, env: Env)
    requires PlaceCore(w) && OpensReview(w.pc)
    ensures Controlled(w, ReviewSteps(cfg, w, env))
  {
    hide CleanOn;
  }

  lemma VerdictStaysPlaced(cfg: Config, w: World, env: Env)
    requires PlaceCore(w) && (w.pc.SavingReview? || w.pc.Deciding? || w.pc.SavingRounds?)
    ensures Controlled(w, ReviewSteps(cfg, w, env))
  {
  }

  lemma ReviewClosesPlaced(cfg: Config, w: World, env: Env)
    requires PlaceCore(w) && (w.pc.ToFix? || w.pc.ToReady? || w.pc.ClearingReview?)
    ensures Controlled(w, ReviewSteps(cfg, w, env))
  {
  }

  lemma DeliveryStaysPlaced(w: World, env: Env)
    requires PlaceCore(w) && (w.pc.DeliverCheck? || w.pc.ToCompleted?)
    ensures Controlled(w, EndSteps(w, env))
  {
  }

  lemma StopStaysPlaced(w: World, env: Env)
    requires PlaceCore(w) && (w.pc.Stopping? || w.pc.StopMoving?)
    ensures Controlled(w, EndSteps(w, env))
  {
  }

  lemma BlockStaysPlaced(w: World, env: Env)
    requires PlaceCore(w) && (w.pc.BlockReading? || w.pc.BlockWriting? || w.pc.BlockMoving?)
    ensures Controlled(w, EndSteps(w, env))
  {
  }

  lemma DispatchIsPlaced(cfg: Config, w: World)
    requires PlaceCore(w) && w.pc.LoopTop?
    ensures Controlled(w, Dispatch(cfg, w))
  {
  }

  /** The controller writes exactly the phases listed, and after such a write it stands where the row
      says, whatever was written under it before. */
  lemma ControllerStaysPlaced(cfg: Config, w: World, env: Env)
    requires PlaceCore(w)
    ensures Controlled(w, Controller(cfg, w, env))
  {
    if w.pc.LoopTop? {
      DispatchIsPlaced(cfg, w);
    } else if w.pc.Committing? || w.pc.Recommitting? {
      CommitStaysPlaced(cfg, w, env);
    } else if Launches(w.pc) {
      LaunchStaysPlaced(cfg, w, env);
    } else if WorkerPc(w.pc) {
      WorkerStaysPlaced(cfg, w, env);
    } else if w.pc.RequestingFix? {
      FixStaysPlaced(cfg, w, env);
    } else if WaitsForCi(w.pc) {
      CiStaysPlaced(cfg, w, env);
    } else if CiPc(w.pc) {
      PublishStaysPlaced(cfg, w, env);
    } else if w.pc.BlockReading? || w.pc.BlockWriting? || w.pc.BlockMoving? {
      BlockStaysPlaced(w, env);
    } else if w.pc.Stopping? || w.pc.StopMoving? {
      StopStaysPlaced(w, env);
    } else if EndPc(w.pc) {
      DeliveryStaysPlaced(w, env);
    } else if OpensReview(w.pc) {
      ReviewOpensPlaced(cfg, w, env);
    } else if w.pc.SavingReview? || w.pc.Deciding? || w.pc.SavingRounds? {
      VerdictStaysPlaced(cfg, w, env);
    } else if ReviewPc(w.pc) {
      ReviewClosesPlaced(cfg, w, env);
    } else {
      RestStaysPlaced(w);
    }
    hide WorkerSteps, CiSteps, ReviewSteps, EndSteps, Dispatch, Controlled, PlaceCore;
  }

  lemma RestStaysPlaced(w: World)
    requires PlaceCore(w) && (w.pc.Idle? || w.pc.ToClaimed?)
    ensures w.pc.Idle? ==> Controlled(w, w)
    ensures w.pc.ToClaimed? ==> Controlled(w, Moved(w, ClaimedIssue, LoopTop))
  {
  }

  /** A command's step keeps the controller where it is, and writes its own entry only. */
  lemma CommandFrame(cfg: Config, w: World, id: nat, env: Env, merged: Option<Sha>)
    requires id in w.operators
    ensures var w' := OperatorStep(cfg, w, id, env, merged);
      && w'.pc == w.pc && w'.row.invocations == w.row.invocations && w'.row.head == w.row.head
      && id in w'.operators && w'.operators == w.operators[id := w'.operators[id]]
      && (w'.operators[id].RecoverFixing? ==>
            (w.operators[id].RecoverFixing? && w'.operators[id] == w.operators[id]) || w'.operators[id].phase in {CiWaiting, BlockedRun})
      && WritesThat(w, w', OperatorWrites(w.row, w.operators[id]))
  {
    hide Judge, CleanOn;
    assert w.operators == w.operators[id := w.operators[id]];
  }

  /** A row whose phase a command may have written, under the same controller. */
  lemma PhaseStaysPlaced(w: World, w': World, o: Operator)
    requires PlaceCore(w) && (o.RecoverFixing? ==> o.phase in {CiWaiting, BlockedRun})
    requires w'.pc == w.pc && w'.row.invocations == w.row.invocations && WritesThat(w, w', OperatorWrites(w.row, o))
    ensures PlaceCore(w') && (OperatorWrites(w.row, o).None? ==> (Placed(w') <==> Placed(w)))
  {
  }

  lemma OperatorStaysPlaced(cfg: Config, w: World, id: nat, env: Env, merged: Option<Sha>)
    requires Places(w) && id in w.operators
    ensures var w' := OperatorStep(cfg, w, id, env, merged);
      && PlaceCore(w') && w'.pc == w.pc && w'.row.invocations == w.row.invocations
      && WritesThat(w, w', OperatorWrites(w.row, w.operators[id]))
      && (OperatorWrites(w.row, w.operators[id]).None? ==> (Placed(w') <==> Placed(w)))
      && id in w'.operators && w'.operators == w.operators[id := w'.operators[id]]
      && (w'.operators[id].RecoverFixing? ==> w'.operators[id].phase in {CiWaiting, BlockedRun})
  {
    hide OperatorStep, PlaceCore, Placed, OperatorWrites, WritesThat;
    CommandFrame(cfg, w, id, env, merged);
    PhaseStaysPlaced(w, OperatorStep(cfg, w, id, env, merged), w.operators[id]);
  }

  lemma ResetStaysPlaced(w: World, pc: Pc)
    requires PlaceCore(w) && pc in {Idle, LoopTop, Stopping, BlockReading}
    ensures PlaceCore(At(w, pc)) && Placed(At(w, pc))
  {
  }

  lemma ViewStaysPlaced(w: World, w': World)
    requires PlaceCore(w) && w' == w.(row := w.row.(desired := w'.row.desired), tree := w'.tree, operators := w'.operators)
    ensures PlaceCore(w') && (Placed(w) <==> Placed(w'))
  {
  }

  lemma OtherStepsStayPlaced(cfg: Config, w: World, step: Step)
    requires Places(w) && !step.Advance? && !step.Operate?
    ensures Places(Do(cfg, w, step)) && WritesThat(w, Do(cfg, w, step), None)
    ensures Placed(w) ==> Placed(Do(cfg, w, step))
  {
    hide PlaceCore, Placed;
    var w' := Do(cfg, w, step);
    if step.SetDesired? || step.Edit? || step.MoveHead? || step.Command? {
      ViewStaysPlaced(w, w');
    } else if w'.pc != w.pc {
      ResetStaysPlaced(w, w'.pc);
    }
  }

  /** A step writes exactly the phase listed for it, if any. */
  lemma StepStaysPlaced(cfg: Config, w: World, step: Step)
    requires Places(w)
    ensures Places(Do(cfg, w, step)) && WritesThat(w, Do(cfg, w, step), Writes(w, step))
    ensures !step.Operate? && (Placed(w) || Writes(w, step).Some?) ==> Placed(Do(cfg, w, step))
  {
    hide Controller, OperatorStep, PlaceCore, Placed, ControllerWrites, OperatorWrites;
    if step.Advance? {
      ControllerStaysPlaced(cfg, w, step.env);
    } else if step.Operate? {
      if step.id in w.operators {
        OperatorStaysPlaced(cfg, w, step.id, step.env, step.merged);
      }
    } else {
      OtherStepsStayPlaced(cfg, w, step);
    }
  }

  lemma {:induction false} EveryRunIsPlaced(cfg: Config, start: World, schedule: seq<Step>)
    requires Start(cfg, start)
    ensures Places(RunFrom(cfg, start, schedule))
  {
    if schedule != [] {
      var front := schedule[..|schedule| - 1];
      EveryRunIsPlaced(cfg, start, front);
      StepStaysPlaced(cfg, RunFrom(cfg, start, front), schedule[|schedule| - 1]);
    }
  }

  // ---------------------------------------------------------------------------------------------
  // Stopped runs

  /** The controller is about to write a phase other than STOPPED without looking at the row again. */
  predicate ForcesPhase(pc: Pc) {
    || pc.ToClaimed? || pc.Launching? || pc.Completing? || pc.Returning? || pc.ToCi? || pc.ToReview? || pc.ToFix?
    || pc.ToReady? || pc.ToCompleted? || pc.BlockMoving?
  }

  lemma LeavingWrites(w: World, step: Step)
    requires NumbersHold(w) && w.row.phase == StoppedRun
    requires forall id :: id in w.operators && w.operators[id].RecoverFixing? ==> w.operators[id].phase in {CiWaiting, BlockedRun}
    ensures Writes(w, step).Some? && Writes(w, step).value != StoppedRun <==>
      || (step.Operate? && step.id in w.operators && w.operators[step.id].ResumeMoving?)
      || (step.Advance? && ForcesPhase(w.pc))
  {
  }

  /** When a STOPPED run stays stopped: a step takes it out of STOPPED if and only if it is the last write
      of a resume, or a phase write that a controller already at work had pending. */
  lemma StoppedIsLeftExactly(cfg: Config, start: World, schedule: seq<Step>, step: Step)
    requires Start(cfg, start) && RunFrom(cfg, start, schedule).row.phase == StoppedRun
    ensures var w := RunFrom(cfg, start, schedule);
      Do(cfg, w, step).row.phase != StoppedRun <==>
        || (step.Operate? && step.id in w.operators && w.operators[step.id].ResumeMoving?)
        || (step.Advance? && ForcesPhase(w.pc))
  {
    hide Do, RunFrom, Placed, NumbersHold, ForcesPhase, Writes;
    EveryRunIsPlaced(cfg, start, schedule);
    StepStaysPlaced(cfg, RunFrom(cfg, start, schedule), step);
    LeavingWrites(RunFrom(cfg, start, schedule), step);
  }

  /** A stop that lands while the controller is about to claim, and is undone. The command has asked for
      STOPPED and found no live controller; then a resume asks for RUNNING and the controller starts. */
  function UndoneStop(env: Env): seq<Step> {
    [SetDesired(Stop), SetDesired(KeepRunning), StartController, Advance(env),
     Command(0, StopReading), Operate(0, env, None), Operate(0, env, None), Advance(env)]
  }

  lemma Unroll(cfg: Config, schedule: seq<Step>, n: nat)
    requires n < |schedule|
    ensures Run(cfg, schedule[..n + 1]) == Do(cfg, Run(cfg, schedule[..n]), schedule[n])
  {
    assert schedule[..n + 1][..n] == schedule[..n];
  }

  lemma ReachClaim(cfg: Config, env: Env)
    ensures var w := Do(cfg, Do(cfg, Do(cfg, Do(cfg, NEW_RUN, SetDesired(Stop)), SetDesired(KeepRunning)), StartController), Advance(env));
      w.pc.ToClaimed? && w.row == NEW_WORK && w.operators == map[]
  {
    hide WorkerSteps, CiSteps, ReviewSteps, EndSteps;
  }

  lemma ReachStop(cfg: Config, w: World, env: Env)
    requires w.pc.ToClaimed? && w.row == NEW_WORK && w.operators == map[]
    ensures var w' := Do(cfg, Do(cfg, Do(cfg, w, Command(0, StopReading)), Operate(0, env, None)), Operate(0, env, None));
      w'.row.phase == StoppedRun && w'.pc.ToClaimed? && w'.row.invocations == 0 && w'.operators[0] == Finished
  {
    hide Controller;
  }

  /** The command has finished and the run was STOPPED; the controller's pending write makes it CLAIMED. */
  lemma PendingWriteUndoesStop(cfg: Config, env: Env)
    ensures var before, after := Run(cfg, UndoneStop(env)[..7]), Run(cfg, UndoneStop(env));
      && before.row.phase == StoppedRun && after.row.phase == ClaimedIssue
      && before.row.invocations == after.row.invocations == 0
      && !before.pc.Launching? && !after.pc.Launching?
  {
    hide Do;
    var s := UndoneStop(env);
    Unroll(cfg, s, 0); Unroll(cfg, s, 1); Unroll(cfg, s, 2); Unroll(cfg, s, 3);
    Unroll(cfg, s, 4); Unroll(cfg, s, 5); Unroll(cfg, s, 6); Unroll(cfg, s, 7);
    assert s[..0] == [] && s[..8] == s;
    ReachClaim(cfg, env);
    ReachStop(cfg, Run(cfg, s[..4]), env);
    LastWriteClaims(cfg, Run(cfg, s[..7]), env);
  }

  lemma LastWriteClaims(cfg: Config, w: World, env: Env)
    requires w.pc.ToClaimed?
    ensures Do(cfg, w, Advance(env)) == Moved(w, ClaimedIssue, LoopTop)
  {
  }
}
