/** Bounded runs: budgets are never exceeded, and every phase change or agent launch uses up a measure. */
module RunnerBounds {
  import opened Common
  import opened RunnerModels
  import opened RunnerGit
  import opened RunnerCi
  import opened RunnerMachine
  import opened RunnerPlaces

  // ---------------------------------------------------------------------------------------------
  // Budgets

  predicate BudgetInv(cfg: Config, w: World) {
    && w.row.invocations <= cfg.maxInvocations
    && w.row.fixRounds <= cfg.maxFixRounds
    && (w.pc.Booking? ==> w.pc.number <= cfg.maxInvocations)
    && (w.pc.ReviewBooking? ==> w.pc.number <= cfg.maxInvocations)
    && (w.pc.SavingRounds? ==> w.pc.rounds <= cfg.maxFixRounds)
    && (w.pc.RequestingFix? ==> w.pc.rounds < cfg.maxFixRounds)
  }

  ghost predicate OperatorBudgets(cfg: Config, w: World) {
    forall id :: id in w.operators && w.operators[id].RecoverFixing? ==> w.operators[id].rounds < cfg.maxFixRounds
  }

  lemma WorkerKeepsBudget(cfg: Config, w: World, env: Env)
    requires BudgetInv(cfg, w)
    ensures BudgetInv(cfg, WorkerSteps(cfg, w, env)) && WorkerSteps(cfg, w, env).operators == w.operators
  {
    hide ValidateAndCommit, ValidateRecovered, PathsOk;
  }

  lemma CiKeepsBudget(cfg: Config, w: World, env: Env)
    requires BudgetInv(cfg, w)
    ensures BudgetInv(cfg, CiSteps(cfg, w, env)) && CiSteps(cfg, w, env).operators == w.operators
  {
    hide Judge;
  }

  lemma ReviewKeepsBudget(cfg: Config, w: World, env: Env)
    requires BudgetInv(cfg, w)
    ensures BudgetInv(cfg, ReviewSteps(cfg, w, env)) && ReviewSteps(cfg, w, env).operators == w.operators
  {
  }

  lemma EndKeepsBudget(cfg: Config, w: World, env: Env)
    requires BudgetInv(cfg, w)
    ensures BudgetInv(cfg, EndSteps(w, env)) && EndSteps(w, env).operators == w.operators
    ensures w.pc.LoopTop? ==> BudgetInv(cfg, Dispatch(cfg, w)) && Dispatch(cfg, w).operators == w.operators
  {
  }

  lemma OperatorKeepsBudget(cfg: Config, w: World, id: nat, env: Env, merged: Option<Sha>)
    requires BudgetInv(cfg, w) && OperatorBudgets(cfg, w) && id in w.operators
    ensures var w' := OperatorStep(cfg, w, id, env, merged); BudgetInv(cfg, w') && OperatorBudgets(cfg, w')
  {
    hide Judge;
  }

  lemma StepKeepsBudget(cfg: Config, w: World, step: Step)
    requires BudgetInv(cfg, w) && OperatorBudgets(cfg, w)
    ensures BudgetInv(cfg, Do(cfg, w, step)) && OperatorBudgets(cfg, Do(cfg, w, step))
  {
    if step.Advance? {
      WorkerKeepsBudget(cfg, w, step.env);
      CiKeepsBudget(cfg, w, step.env);
      ReviewKeepsBudget(cfg, w, step.env);
      EndKeepsBudget(cfg, w, step.env);
      if w.pc.ToClaimed? {
        assert BudgetInv(cfg, Moved(w, ClaimedIssue, LoopTop));
      }
      hide BudgetInv, WorkerSteps, CiSteps, ReviewSteps, EndSteps, Dispatch;
    } else if step.Operate? && step.id in w.operators {
      hide BudgetInv, OperatorBudgets, OperatorStep;
      OperatorKeepsBudget(cfg, w, step.id, step.env, step.merged);
    }
  }

  /** Over every schedule, crashes, recoveries and operator commands included, invocations and fix
      rounds never exceed their budgets. */
  lemma {:induction false} BudgetsHold(cfg: Config, start: World, schedule: seq<Step>)
    requires Start(cfg, start)
    ensures var w := RunFrom(cfg, start, schedule);
      && BudgetInv(cfg, w) && OperatorBudgets(cfg, w)
      && w.row.invocations <= cfg.maxInvocations && w.row.fixRounds <= cfg.maxFixRounds
  {
    if schedule != [] {
      var front := schedule[..|schedule| - 1];
      BudgetsHold(cfg, start, front);
      StepKeepsBudget(cfg, RunFrom(cfg, start, front), schedule[|schedule| - 1]);
    }
  }

  // ---------------------------------------------------------------------------------------------
  // Every fix that is granted is counted

  /** The step grants a fix: a review, a CI wait or a blocked run becomes FIX_REQUESTED. */
  predicate Grants(w: World, w': World) {
    w.row.phase in {ReviewRunning, CiWaiting, BlockedRun} && w'.row.phase == FixRequested
  }

  /** A round that was counted for a review is lost: a crash or an exception before the phase is
      written, or a phase that a command has changed under the review. */
  predicate Loses(w: World, step: Step) {
    w.pc.ToFix? && (step.Crash? || step.Raise? || (step.Advance? && w.row.phase != ReviewRunning))
  }

  /** The rounds a review was started with are still the stored ones. */
  predicate RoundsHold(w: World) {
    match w.pc
    case ClearingStale(_, rounds) => rounds == w.row.fixRounds
    case ReviewBudget(_, rounds) => rounds == w.row.fixRounds
    case ReviewBooking(_, rounds, _) => rounds == w.row.fixRounds
    case Reviewing(_, rounds) => rounds == w.row.fixRounds
    case Finishing(_, rounds, _) => rounds == w.row.fixRounds
    case SavingReview(_, rounds, _) => rounds == w.row.fixRounds
    case Deciding(_, rounds, _) => rounds == w.row.fixRounds
    case SavingRounds(_, rounds) => rounds == w.row.fixRounds + 1
    case _ => true
  }

  /** What one step does to the count. */
  predicate Counted(w: World, w': World, loses: bool) {
    && RoundsHold(w')
    && (if Grants(w, w') then 1 else 0) + (if loses then 1 else 0) + (if w'.pc.ToFix? then 1 else 0)
       == w'.row.fixRounds - w.row.fixRounds + (if w.pc.ToFix? then 1 else 0)
  }

  lemma WorkerIsCounted(cfg: Config, w: World, env: Env)
    requires PlaceCore(w) && WorkerPc(w.pc)
    ensures Counted(w, WorkerSteps(cfg, w, env), false)
  {
    hide Attempt, ValidateRecovered, WorkerMayStart;
    if w.tree.Some? && (w.pc.Committing? || w.pc.Recommitting?) {
      AttemptFrame(cfg, w, w.pc.parent, w.pc.result, env);
    }
  }

  lemma CiIsCounted(cfg: Config, w: World, env: Env)
    requires PlaceCore(w) && CiPc(w.pc)
    ensures Counted(w, CiSteps(cfg, w, env), false)
  {
    hide Judge, CleanOn, OnTree, Placed, Overlaid;
  }

  predicate Decides(pc: Pc) {
    pc.Deciding? || pc.SavingRounds? || pc.ToFix? || pc.ToReady? || pc.ClearingReview?
  }

  lemma ReviewingIsCounted(cfg: Config, w: World, env: Env)
    requires RoundsHold(w) && ReviewPc(w.pc) && !Decides(w.pc)
    ensures Counted(w, ReviewSteps(cfg, w, env), false)
  {
    hide CleanOn;
  }

  lemma DecidingIsCounted(cfg: Config, w: World, env: Env)
    requires PlaceCore(w) && RoundsHold(w) && Decides(w.pc)
    ensures Counted(w, ReviewSteps(cfg, w, env), w.pc.ToFix? && w.row.phase != ReviewRunning)
  {
    hide CleanOn;
  }

  lemma ReviewIsCounted(cfg: Config, w: World, env: Env)
    requires PlaceCore(w) && RoundsHold(w) && ReviewPc(w.pc)
    ensures Counted(w, ReviewSteps(cfg, w, env), w.pc.ToFix? && w.row.phase != ReviewRunning)
  {
    hide CleanOn, Counted, ReviewSteps, RoundsHold, PlaceCore;
    if Decides(w.pc) {
      DecidingIsCounted(cfg, w, env);
    } else {
      ReviewingIsCounted(cfg, w, env);
    }
  }

  lemma OthersAreCounted(cfg: Config, w: World, env: Env)
    requires !WorkerPc(w.pc) && !CiPc(w.pc) && !ReviewPc(w.pc)
    ensures Counted(w, Controller(cfg, w, env), false)
  {
    hide CleanOn;
  }

  lemma ControllerIsCounted(cfg: Config, w: World, env: Env)
    requires PlaceCore(w) && RoundsHold(w)
    ensures Counted(w, Controller(cfg, w, env), w.pc.ToFix? && w.row.phase != ReviewRunning)
  {
    hide WorkerSteps, CiSteps, ReviewSteps, EndSteps, Dispatch, Counted, PlaceCore, RoundsHold;
    if WorkerPc(w.pc) {
      WorkerIsCounted(cfg, w, env);
    } else if CiPc(w.pc) {
      CiIsCounted(cfg, w, env);
    } else if ReviewPc(w.pc) {
      ReviewIsCounted(cfg, w, env);
    } else {
      OthersAreCounted(cfg, w, env);
    }
  }

  lemma OperatorIsCounted(cfg: Config, w: World, id: nat, env: Env, merged: Option<Sha>)
    requires Places(w) && RoundsHold(w) && id in w.operators
    ensures Counted(w, OperatorStep(cfg, w, id, env, merged), false)
  {
    hide Judge, CleanOn;
  }

  lemma StepIsCounted(cfg: Config, w: World, step: Step)
    requires Places(w) && RoundsHold(w)
    ensures Counted(w, Do(cfg, w, step), Loses(w, step))
  {
    hide PlaceCore;
    if step.Advance? {
      hide Controller, RoundsHold, Counted;
      ControllerIsCounted(cfg, w, step.env);
    } else if step.Operate? && step.id in w.operators {
      hide OperatorStep, RoundsHold, Counted;
      OperatorIsCounted(cfg, w, step.id, step.env, step.merged);
    }
  }

  /** How many steps of a schedule grant a fix. */
  ghost function Granted(cfg: Config, start: World, schedule: seq<Step>): nat {
    if schedule == [] then 0
    else
      var front := schedule[..|schedule| - 1];
      Granted(cfg, start, front) + if Grants(RunFrom(cfg, start, front), RunFrom(cfg, start, schedule)) then 1 else 0
  }

  ghost function Lost(cfg: Config, start: World, schedule: seq<Step>): nat {
    if schedule == [] then 0
    else
      var front := schedule[..|schedule| - 1];
      Lost(cfg, start, front) + if Loses(RunFrom(cfg, start, front), schedule[|schedule| - 1]) then 1 else 0
  }

  lemma {:induction false} RoundsAreCounted(cfg: Config, start: World, schedule: seq<Step>)
    requires Start(cfg, start)
    ensures var w := RunFrom(cfg, start, schedule);
      && RoundsHold(w)
      && Granted(cfg, start, schedule) + Lost(cfg, start, schedule) + (if w.pc.ToFix? then 1 else 0)
         == w.row.fixRounds - start.row.fixRounds
  {
    if schedule != [] {
      hide Do, Places, Loses, Grants;
      var front := schedule[..|schedule| - 1];
      RoundsAreCounted(cfg, start, front);
      EveryRunIsPlaced(cfg, start, front);
      StepIsCounted(cfg, RunFrom(cfg, start, front), schedule[|schedule| - 1]);
    }
  }

  /** Over every schedule, commands included, the stored fix rounds are exactly the fixes that were
      granted, those that were lost on the way, and the one about to be granted. So at most
      `maxFixRounds` fixes are ever granted, and every one of them is paid for. */
  lemma FixesAreCounted(cfg: Config, start: World, schedule: seq<Step>)
    requires Start(cfg, start)
    ensures var w := RunFrom(cfg, start, schedule);
      && Granted(cfg, start, schedule) + Lost(cfg, start, schedule) + (if w.pc.ToFix? then 1 else 0)
         == w.row.fixRounds - start.row.fixRounds
      && Granted(cfg, start, schedule) <= cfg.maxFixRounds - start.row.fixRounds
  {
    RoundsAreCounted(cfg, start, schedule);
    BudgetsHold(cfg, start, schedule);
    hide RunFrom, Granted, Lost;
  }

  // ---------------------------------------------------------------------------------------------
  // The measure

  /** How far a phase is from the end. An interrupted worker returns to CLAIMED or FIX_REQUESTED, so
      these rank below WORKER_RUNNING; leaving them costs an invocation. */
  function PhaseRank(p: RunPhase): nat {
    match p
    case CreatedRun => 9
    case WorkerRunning => 8
    case WorkerComplete => 7
    case CiWaiting => 6
    case ReviewRunning => 5
    case ClaimedIssue => 4
    case FixRequested => 4
    case ReadyForOwner => 3
    case OwnerMerged => 2
    case CompletedRun => 1
    case BlockedRun => 1
    case StoppedRun => 0
    case _ => 10
  }

  /** Between booking an invocation and entering WORKER_RUNNING the booked launch is still to come. */
  function Rank(w: World): nat {
    if w.pc.Launching? then 9 else PhaseRank(w.row.phase)
  }

  const RANKS := 11

  /** Invocations left first, then the rank, as one number. */
  function Measure(cfg: Config, w: World): int {
    (cfg.maxInvocations - w.row.invocations) * RANKS + Rank(w)
  }

  /** The command's last write moves the run back up: a CI recovery of a BLOCKED run, or an owner merge
      of a run that is COMPLETED, BLOCKED or STOPPED. */
  predicate CommandReopens(w: World, o: Operator) {
    || (o.RecoverPassed? && RecoveryExpected(w.row, o.head))
    || (o.RecoverFixing? && FixExpected(w.row, o.phase, o.head, o.rounds) && w.row.phase == BlockedRun)
    || (o.ResumeMoving? && w.row.phase in {CompletedRun, BlockedRun, StoppedRun} && !w.pc.Launching?)
  }

  /** The controller's pending phase write overrules what a command wrote under it: a stop, an owner
      merge, or a fix request. */
  predicate ControllerOverrules(w: World) {
    || (w.row.phase == StoppedRun && ForcesPhase(w.pc) && !w.pc.Launching?)
    || (w.row.phase == OwnerMerged
        && (w.pc.ToClaimed? || w.pc.Completing? || w.pc.Returning? || w.pc.ToCi? || w.pc.ToReview? || w.pc.ToFix? || w.pc.ToReady?))
    || (w.row.phase == FixRequested && w.pc.ToReview?)
  }

  predicate Rises(w: World, step: Step) {
    || (step.Operate? && step.id in w.operators && CommandReopens(w, w.operators[step.id]))
    || (step.Advance? && ControllerOverrules(w))
  }

  predicate SamePlace(w: World, w': World) { w'.row.phase == w.row.phase && w'.row.invocations == w.row.invocations }

  /** What one step may do to the measure. */
  predicate Accounted(cfg: Config, w: World, w': World, rises: bool) {
    && (Measure(cfg, w') > Measure(cfg, w) <==> rises)
    && Measure(cfg, w') <= Measure(cfg, w) + 7
    && (!rises && !SamePlace(w, w') ==> Measure(cfg, w') < Measure(cfg, w))
  }

  /** The measure sees only the phase, the invocations and whether a launch is pending. */
  predicate Seen(w: World, w': World) {
    && w'.row.phase == (if ControllerWrites(w).Some? then ControllerWrites(w).value else w.row.phase)
    && w'.row.invocations == (if w.pc.Booking? || w.pc.ReviewBooking? then w.row.invocations + 1 else w.row.invocations)
    && (w'.pc.Launching? <==> w.pc.Booking?)
  }

  lemma WorkerIsSeen(cfg: Config, w: World, env: Env)
    requires NumbersHold(w) && WorkerPc(w.pc)
    ensures Seen(w, WorkerSteps(cfg, w, env))
  {
    hide Attempt, ValidateRecovered, WorkerMayStart;
    if w.tree.Some? && (w.pc.Committing? || w.pc.Recommitting?) {
      AttemptFrame(cfg, w, w.pc.parent, w.pc.result, env);
    }
  }

  lemma CiIsSeen(cfg: Config, w: World, env: Env)
    requires CiPc(w.pc)
    ensures Seen(w, CiSteps(cfg, w, env))
  {
    hide Judge, CleanOn, OnTree;
  }

  lemma ReviewIsSeen(cfg: Config, w: World, env: Env)
    requires NumbersHold(w) && ReviewPc(w.pc)
    ensures Seen(w, ReviewSteps(cfg, w, env))
  {
    hide CleanOn;
  }

  lemma EndIsSeen(w: World, env: Env)
    requires EndPc(w.pc)
    ensures Seen(w, EndSteps(w, env))
  {
  }

  lemma LoopIsSeen(cfg: Config, w: World)
    ensures w.pc.LoopTop? ==> Seen(w, Dispatch(cfg, w))
    ensures w.pc.ToClaimed? ==> Seen(w, Moved(w, ClaimedIssue, LoopTop))
    ensures w.pc.Idle? ==> Seen(w, w)
  {
  }

  lemma ControllerIsSeen(cfg: Config, w: World, env: Env)
    requires NumbersHold(w)
    ensures Seen(w, Controller(cfg, w, env))
  {
    hide WorkerSteps, CiSteps, ReviewSteps, EndSteps, Dispatch, Seen, NumbersHold;
    if WorkerPc(w.pc) {
      WorkerIsSeen(cfg, w, env);
    } else if CiPc(w.pc) {
      CiIsSeen(cfg, w, env);
    } else if EndPc(w.pc) {
      EndIsSeen(w, env);
    } else if ReviewPc(w.pc) {
      ReviewIsSeen(cfg, w, env);
    } else {
      LoopIsSeen(cfg, w);
    }
  }

  /** What that makes of the measure. */
  lemma SeenIsAccounted(cfg: Config, w: World, w': World)
    requires PlaceCore(w) && Seen(w, w')
    ensures Accounted(cfg, w, w', ControllerOverrules(w))
  {
  }

  lemma ControllerIsAccounted(cfg: Config, w: World, env: Env)
    requires PlaceCore(w)
    ensures Accounted(cfg, w, Controller(cfg, w, env), ControllerOverrules(w))
  {
    ControllerIsSeen(cfg, w, env);
    hide Controller, Accounted, ControllerOverrules, Placed;
    SeenIsAccounted(cfg, w, Controller(cfg, w, env));
  }

  lemma OperatorIsAccounted(cfg: Config, w: World, id: nat, env: Env, merged: Option<Sha>)
    requires Places(w) && id in w.operators
    ensures var w', o := OperatorStep(cfg, w, id, env, merged), w.operators[id];
      && (Measure(cfg, w') > Measure(cfg, w) <==> CommandReopens(w, o))
      && Measure(cfg, w') <= Measure(cfg, w) + 7
      && (OperatorWrites(w.row, o).None? ==> SamePlace(w, w'))
      && (OperatorWrites(w.row, o).Some? && !CommandReopens(w, o) && !SamePlace(w, w') && Placed(w')
          ==> Measure(cfg, w') < Measure(cfg, w))
  {
    hide Judge, CleanOn;
  }

  /** Exactly when the measure rises, in every reachable world: at a command's write that reopens the run,
      and at a pending phase write of the controller that overrules such a command. Any other step that
      changes the phase or launches an agent lowers it, except a command's write that displaces a running
      controller. */
  lemma MeasureRisesExactly(cfg: Config, start: World, schedule: seq<Step>, step: Step)
    requires Start(cfg, start)
    ensures var w := RunFrom(cfg, start, schedule); var w' := Do(cfg, w, step);
      && (Measure(cfg, w') > Measure(cfg, w) <==> Rises(w, step))
      && (!Rises(w, step) && !SamePlace(w, w') ==> Measure(cfg, w') < Measure(cfg, w) || (step.Operate? && !Placed(w')))
  {
    EveryRunIsPlaced(cfg, start, schedule);
    StepIsAccounted(cfg, RunFrom(cfg, start, schedule), step);
    hide Places, Placed, Rises, Measure, RunFrom, Do;
  }

  /** A command's write that raises the measure, or lands under a controller that stands elsewhere. */
  predicate Disturbs(cfg: Config, w: World, step: Step) {
    && step.Operate? && Writes(w, step).Some?
    && (Rises(w, step) || !Placed(Do(cfg, w, step)))
  }

  /** What a controller that was overruled may still cost. */
  function Potential(cfg: Config, w: World): int {
    Measure(cfg, w) + if Placed(w) then 0 else 8
  }

  const COST := 16

  function Moves(w: World, w': World): nat { if SamePlace(w, w') then 0 else 1 }

  lemma StepIsAccounted(cfg: Config, w: World, step: Step)
    requires Places(w)
    ensures var w' := Do(cfg, w, step);
      && (Measure(cfg, w') > Measure(cfg, w) <==> Rises(w, step))
      && Measure(cfg, w') <= Measure(cfg, w) + 7
      && (!Rises(w, step) && !SamePlace(w, w') ==> Measure(cfg, w') < Measure(cfg, w) || (step.Operate? && !Placed(w')))
      && (step.Operate? && Writes(w, step).None? ==> SamePlace(w, w'))
  {
    if step.Advance? {
      ControllerIsAccounted(cfg, w, step.env);
      hide Controller, PlaceCore, ControllerOverrules, Placed, Measure;
    } else if step.Operate? && step.id in w.operators {
      OperatorIsAccounted(cfg, w, step.id, step.env, step.merged);
      hide OperatorStep, PlaceCore, CommandReopens, Placed, Measure;
    }
  }

  /** Each move is paid for by the potential or by a disturbing write. */
  lemma StepIsPaidFor(cfg: Config, w: World, step: Step)
    requires Places(w)
    ensures var w' := Do(cfg, w, step);
      Moves(w, w') + Potential(cfg, w') <= Potential(cfg, w) + if Disturbs(cfg, w, step) then COST else 0
  {
    StepIsAccounted(cfg, w, step);
    StepStaysPlaced(cfg, w, step);
    var w' := Do(cfg, w, step);
    if Rises(w, step) && step.Advance? {
      OverruledIsDisplaced(w);
    }
    hide Do, Places, PlaceCore, Placed, Measure, CommandReopens, ControllerOverrules, OperatorWrites, ControllerWrites;
  }

  lemma OverruledIsDisplaced(w: World)
    requires ControllerOverrules(w)
    ensures !Placed(w) && ControllerWrites(w).Some?
  {
  }

  /** How many steps of a schedule change the phase or launch an agent. */
  ghost function Progress(cfg: Config, start: World, schedule: seq<Step>): nat {
    if schedule == [] then 0
    else
      var front := schedule[..|schedule| - 1];
      Progress(cfg, start, front) + Moves(RunFrom(cfg, start, front), RunFrom(cfg, start, schedule))
  }

  ghost function Disturbances(cfg: Config, start: World, schedule: seq<Step>): nat {
    if schedule == [] then 0
    else
      var front := schedule[..|schedule| - 1];
      Disturbances(cfg, start, front) + if Disturbs(cfg, RunFrom(cfg, start, front), schedule[|schedule| - 1]) then 1 else 0
  }

  lemma {:induction false} ProgressIsPaidFor(cfg: Config, start: World, schedule: seq<Step>)
    requires Start(cfg, start)
    ensures Progress(cfg, start, schedule) + Potential(cfg, RunFrom(cfg, start, schedule))
            <= Measure(cfg, start) + COST * Disturbances(cfg, start, schedule)
  {
    if schedule != [] {
      hide Do, Places, Potential, Disturbs, Moves;
      var front := schedule[..|schedule| - 1];
      ProgressIsPaidFor(cfg, start, front);
      EveryRunIsPlaced(cfg, start, front);
      StepIsPaidFor(cfg, RunFrom(cfg, start, front), schedule[|schedule| - 1]);
    }
  }

  /** Every schedule makes at most a fixed number of phase changes and launches, however often the run
      crashes, is paused or is resumed, and a fixed number more for each disturbing command. */
  lemma RunsAreBounded(cfg: Config, start: World, schedule: seq<Step>)
    requires Start(cfg, start)
    ensures Progress(cfg, start, schedule) <= Measure(cfg, start) + COST * Disturbances(cfg, start, schedule)
    ensures Measure(cfg, start) <= cfg.maxInvocations * RANKS + 9
  {
    ProgressIsPaidFor(cfg, start, schedule);
    BudgetsHold(cfg, start, schedule);
    hide RunFrom, Progress, Disturbances;
    assert 0 <= Measure(cfg, RunFrom(cfg, start, schedule));
    StartIsLow(cfg, start);
  }

  lemma StartIsLow(cfg: Config, start: World)
    requires Start(cfg, start)
    ensures Measure(cfg, start) <= cfg.maxInvocations * RANKS + 9
  {
  }

  /** A concrete rising schedule: a stop lands under a controller that then claims the issue. */
  lemma MeasureCanRise(cfg: Config, env: Env)
    ensures Measure(cfg, Run(cfg, UndoneStop(env)[..7])) < Measure(cfg, Run(cfg, UndoneStop(env)))
  {
    PendingWriteUndoesStop(cfg, env);
    hide Run;
  }
}
