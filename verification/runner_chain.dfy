/** The accepted commit chain: what a run's head is made of, and that a crash between the git commit and
    the store write neither loses a commit nor stacks a second one. */
module RunnerChain {
  import opened Common
  import opened RunnerModels
  import opened RunnerGit
  import opened RunnerCi
  import opened RunnerMachine
  import opened RunnerPlaces
  import opened RunnerGate

  /** The frozen base, or one runner commit inside the grant on such a chain. */
  predicate Chain(cfg: Config, head: Sha)
    decreases head
  {
    || head == cfg.base
    || (head.Commit? && head.parents != [] && RunnerCommit(cfg.git, cfg.task, head.parents[0], head) && Chain(cfg, head.parents[0]))
  }

  /** The parent a worker step commits on. */
  function ParentOf(pc: Pc): Option<Sha> {
    match pc
    case Booking(_, p, _) => Some(p)
    case Launching(_, p) => Some(p)
    case AgentWorking(p) => Some(p)
    case Committing(p, _) => Some(p)
    case Recommitting(p, _, _) => Some(p)
    case Returning(_, p) => Some(p)
    case RestoringParent(p) => Some(p)
    case SavingHead(h) => Some(h)
    case _ => None
  }

  predicate ChainInv(cfg: Config, w: World) {
    && (w.row.head.Some? ==> Chain(cfg, w.row.head.value))
    && (w.row.workerParent.Some? ==> Chain(cfg, w.row.workerParent.value))
    && (ParentOf(w.pc).Some? ==> Chain(cfg, ParentOf(w.pc).value))
    && (w.pc.WorkerCheck? ==> w.pc.phase in {ClaimedIssue, FixRequested})
    && (w.pc.Committing? || w.pc.Recommitting? ==> w.pc.result.success)
  }

  lemma RunnerCommitExtendsChain(cfg: Config, parent: Sha, head: Sha)
    requires Chain(cfg, parent) && RunnerCommit(cfg.git, cfg.task, parent, head)
    ensures Chain(cfg, head)
  {
  }

  lemma AttemptExtendsChain(cfg: Config, w: World, parent: Sha, result: WorkerResult, env: Env)
    requires w.tree.Some? && Chain(cfg, parent)
    ensures var (w', head) := Attempt(cfg, w, parent, result, env);
      && w'.row == w.row && w'.operators == w.operators
      && (head.Some? ==> Chain(cfg, head.value))
  {
    CommitIsARunnerCommit(cfg.git, cfg.task, parent, result, w.tree.value, env.git);
    var head := Attempt(cfg, w, parent, result, env).1;
    hide ValidateAndCommit;
    if head.Some? {
      RunnerCommitExtendsChain(cfg, parent, head.value);
    }
  }

  lemma RecoveryExtendsChain(cfg: Config, parent: Sha, result: WorkerResult, t: Tree, env: GitEnv)
    requires Chain(cfg, parent) && ValidateRecovered(cfg.git, cfg.task, parent, result, t, env).Ok?
    ensures Chain(cfg, ValidateRecovered(cfg.git, cfg.task, parent, result, t, env).value.0)
  {
    RecoveredIsARunnerCommit(cfg.git, cfg.task, parent, result, t, env);
    hide ValidateRecovered;
    RunnerCommitExtendsChain(cfg, parent, t.head);
  }

  lemma WorkerKeepsChain(cfg: Config, w: World, env: Env)
    requires ChainInv(cfg, w) && WorkerPc(w.pc)
    ensures ChainInv(cfg, WorkerSteps(cfg, w, env))
  {
    hide Chain, Attempt, ValidateRecovered, PathsOk;
    if w.tree.Some? && (w.pc.Committing? || w.pc.Recommitting?) {
      AttemptExtendsChain(cfg, w, w.pc.parent, w.pc.result, env);
    }
    if w.pc.RecoverCheck? && w.tree.Some? && w.row.workerParent.Some? && env.worker.Some? {
      var parent := w.row.workerParent.value;
      if ValidateRecovered(cfg.git, cfg.task, parent, env.worker.value, w.tree.value, env.git).Ok? {
        RecoveryExtendsChain(cfg, parent, env.worker.value, w.tree.value, env.git);
      }
    }
    ChainBase(cfg);
  }

  lemma ChainBase(cfg: Config)
    ensures Chain(cfg, cfg.base)
  {
  }

  /** A step that touches neither head nor parent and does not enter a worker's step. */
  predicate KeepsChainColumns(w: World, w': World) {
    && w'.row.head == w.row.head && w'.row.workerParent == w.row.workerParent
    && (w'.pc == w.pc || (ParentOf(w'.pc).None? && (w'.pc.WorkerCheck? ==> w'.pc.phase in {ClaimedIssue, FixRequested})))
  }

  lemma ColumnsKeepChain(cfg: Config, w: World, w': World)
    requires ChainInv(cfg, w) && KeepsChainColumns(w, w')
    ensures ChainInv(cfg, w')
  {
    hide Chain;
  }

  lemma CiKeepsColumns(cfg: Config, w: World, env: Env)
    requires CiPc(w.pc)
    ensures KeepsChainColumns(w, CiSteps(cfg, w, env))
  {
    hide Judge, CleanOn, OnTree;
  }

  lemma ReviewKeepsColumns(cfg: Config, w: World, env: Env)
    requires ReviewPc(w.pc)
    ensures KeepsChainColumns(w, ReviewSteps(cfg, w, env))
  {
    hide CleanOn;
  }

  lemma OthersKeepColumns(cfg: Config, w: World, env: Env)
    ensures EndPc(w.pc) ==> KeepsChainColumns(w, EndSteps(w, env))
    ensures w.pc.LoopTop? ==> KeepsChainColumns(w, Dispatch(cfg, w))
    ensures w.pc.ToClaimed? ==> KeepsChainColumns(w, Moved(w, ClaimedIssue, LoopTop))
  {
  }

  lemma ControllerKeepsChain(cfg: Config, w: World, env: Env)
    requires ChainInv(cfg, w)
    ensures ChainInv(cfg, Controller(cfg, w, env))
  {
    hide ChainInv, WorkerSteps, CiSteps, ReviewSteps, EndSteps, Dispatch, KeepsChainColumns;
    if WorkerPc(w.pc) {
      WorkerKeepsChain(cfg, w, env);
    } else if !w.pc.Idle? {
      if CiPc(w.pc) {
        CiKeepsColumns(cfg, w, env);
      } else if ReviewPc(w.pc) {
        ReviewKeepsColumns(cfg, w, env);
      } else {
        OthersKeepColumns(cfg, w, env);
      }
      ColumnsKeepChain(cfg, w, Controller(cfg, w, env));
    }
  }

  lemma StepKeepsChain(cfg: Config, w: World, step: Step)
    requires ChainInv(cfg, w)
    ensures ChainInv(cfg, Do(cfg, w, step))
  {
    if step.Advance? {
      ControllerKeepsChain(cfg, w, step.env);
    } else {
      if step.Operate? && step.id in w.operators {
        OperatorKeepsParent(cfg, w, step.id, step.env, step.merged);
      }
      hide OperatorStep, ChainInv;
      ColumnsKeepChain(cfg, w, Do(cfg, w, step));
    }
    hide Controller, ChainInv;
  }

  lemma OperatorKeepsParent(cfg: Config, w: World, id: nat, env: Env, merged: Option<Sha>)
    requires id in w.operators
    ensures var w' := OperatorStep(cfg, w, id, env, merged);
      w'.pc == w.pc && w'.row.head == w.row.head && w'.row.workerParent == w.row.workerParent
  {
    hide Judge, CleanOn;
  }

  lemma {:induction false} EveryRunKeepsChain(cfg: Config, schedule: seq<Step>)
    ensures ChainInv(cfg, Run(cfg, schedule))
  {
    if schedule != [] {
      EveryRunKeepsChain(cfg, schedule[..|schedule| - 1]);
      StepKeepsChain(cfg, Run(cfg, schedule[..|schedule| - 1]), schedule[|schedule| - 1]);
    }
  }

  /** Whatever happens to the worktree and whoever moves its HEAD, the head a run accepts is the frozen
      base followed by single runner commits, each inside the allowed paths. */
  lemma AcceptedHeadIsAChain(cfg: Config, schedule: seq<Step>)
    ensures var head := Run(cfg, schedule).row.head;
      head.Some? ==> Chain(cfg, head.value)
  {
    EveryRunKeepsChain(cfg, schedule);
  }

  // ---------------------------------------------------------------------------------------------
  // When only the runner moves HEAD: nothing lost, nothing stacked

  /** The last runner commit, or the base. */
  function Tip(cfg: Config, made: seq<Sha>): Sha {
    if made == [] then cfg.base else made[|made| - 1]
  }

  function Before(cfg: Config, made: seq<Sha>): Sha
    requires made != []
  {
    Tip(cfg, made[..|made| - 1])
  }

  /** Each runner commit sits on the one before. */
  predicate Stack(cfg: Config, made: seq<Sha>) {
    made == [] || (
      && made[|made| - 1].Commit? && made[|made| - 1].parents == [Before(cfg, made)]
      && RunnerCommit(cfg.git, cfg.task, Before(cfg, made), made[|made| - 1])
      && Stack(cfg, made[..|made| - 1]))
  }

  /** The row's head for a given list of accepted commits. */
  function HeadOf(made: seq<Sha>): Option<Sha> {
    if made == [] then None else Some(made[|made| - 1])
  }

  /** Every commit is accepted. */
  predicate CaughtUp(w: World) { w.row.head == HeadOf(w.made) }

  /** The last commit is not accepted yet, and the row still names the parent it was made on. */
  predicate OneBehind(cfg: Config, w: World) {
    && w.made != []
    && w.row.head == HeadOf(w.made[..|w.made| - 1])
    && w.row.workerParent == Some(Before(cfg, w.made))
  }

  predicate HeadOk(cfg: Config, w: World) {
    && (w.tree.None? ==> w.made == [])
    && (w.tree.Some? ==> w.tree.value.head == Tip(cfg, w.made))
    && (CaughtUp(w) || OneBehind(cfg, w))
    && (w.row.workerParent.Some? ==>
          w.row.workerParent.value == Tip(cfg, w.made) || (w.made != [] && w.row.workerParent.value == Before(cfg, w.made)))
  }

  predicate OnTip(cfg: Config, w: World, h: Sha) { w.row.head == Some(h) && h == Tip(cfg, w.made) }

  predicate PcOk(cfg: Config, w: World) {
    match w.pc
    case Booking(_, p, _) => CaughtUp(w) && p == Tip(cfg, w.made)
    case Launching(_, p) => CaughtUp(w) && p == Tip(cfg, w.made) && w.row.workerParent == Some(p)
    case AgentWorking(p) => CaughtUp(w) && p == Tip(cfg, w.made) && w.row.workerParent == Some(p)
    case Committing(p, _) => CaughtUp(w) && p == Tip(cfg, w.made) && w.row.workerParent == Some(p)
    case Recommitting(p, _, _) => CaughtUp(w) && p == Tip(cfg, w.made) && w.row.workerParent == Some(p)
    case Returning(_, p) => CaughtUp(w) && p == Tip(cfg, w.made)
    case RestoringParent(p) => CaughtUp(w) && p == Tip(cfg, w.made)
    case SavingHead(h) => w.made != [] && h == Tip(cfg, w.made) && w.row.workerParent == Some(Before(cfg, w.made))
    case Completing => CaughtUp(w) && w.made != [] && w.row.workerParent == Some(Before(cfg, w.made))
    case ClearingParent => CaughtUp(w) && w.made != [] && w.row.workerParent == Some(Before(cfg, w.made))
    case PublishCheck(_) => CaughtUp(w) && w.made != []
    case Publishing => CaughtUp(w) && w.made != []
    case ToCi => CaughtUp(w) && w.made != []
    case ClearingStale(h, _) => w.row.head == Some(h)
    case ReviewBudget(h, _) => w.row.head == Some(h)
    case ReviewBooking(h, _, _) => w.row.head == Some(h)
    case Reviewing(h, _) => w.row.head == Some(h)
    case Finishing(h, _, _) => w.row.head == Some(h)
    case SavingReview(h, _, _) => OnTip(cfg, w, h)
    case Deciding(h, _, _) => OnTip(cfg, w, h)
    case ToReady(h) => OnTip(cfg, w, h)
    case DeliverCheck(_) => CaughtUp(w) && w.made != []
    case ToCompleted(_) => CaughtUp(w) && w.made != []
    case _ => true
  }

  /** From the accepted result on, no runner commit is outstanding. */
  predicate PhaseOk(w: World) {
    w.row.phase in {WorkerComplete, CiWaiting, ReadyForOwner, OwnerMerged, CompletedRun} ==> CaughtUp(w) && w.made != []
  }

  ghost predicate StackInv(cfg: Config, w: World) {
    Stack(cfg, w.made) && HeadOk(cfg, w) && PcOk(cfg, w) && PhaseOk(w) && Gated(w)
  }

  lemma StackGrows(cfg: Config, made: seq<Sha>, head: Sha)
    requires Stack(cfg, made) && head.Commit? && head.parents == [Tip(cfg, made)]
    requires RunnerCommit(cfg.git, cfg.task, Tip(cfg, made), head)
    ensures Stack(cfg, made + [head]) && Tip(cfg, made + [head]) == head && Before(cfg, made + [head]) == Tip(cfg, made)
    ensures HeadOf((made + [head])[..|made + [head]| - 1]) == HeadOf(made)
  {
    hide RunnerCommit;
    assert (made + [head])[..|made|] == made;
  }

  /** What a commit attempt does to the worktree and to the list of commits. */
  lemma AttemptMakesOne(cfg: Config, w: World, parent: Sha, result: WorkerResult, env: Env)
    requires w.tree.Some?
    ensures var (w', head) := Attempt(cfg, w, parent, result, env);
      && w' == w.(tree := w'.tree, made := w'.made) && w'.tree.Some?
      && ((w'.made == w.made && w'.tree.value.head == w.tree.value.head && head.None?)
          || (w'.made == w.made + [w'.tree.value.head] && w'.tree.value.head != w.tree.value.head
              && (head.Some? ==> head.value == w'.tree.value.head)
              && w'.tree.value.head.Commit? && w'.tree.value.head.parents == [parent]
              && RunnerCommit(cfg.git, cfg.task, parent, w'.tree.value.head)))
  {
    CommitIsARunnerCommit(cfg.git, cfg.task, parent, result, w.tree.value, env.git);
    hide ValidateAndCommit, RunnerCommit;
  }

  /** A commit adds itself to the stack, and leaves the row one behind. */
  lemma AttemptStacksOne(cfg: Config, w: World, parent: Sha, result: WorkerResult, env: Env)
    requires w.tree.Some? && Stack(cfg, w.made) && HeadOk(cfg, w) && CaughtUp(w)
    requires parent == Tip(cfg, w.made) && w.row.workerParent == Some(parent)
    ensures var (w', head) := Attempt(cfg, w, parent, result, env);
      && w' == w.(tree := w'.tree, made := w'.made) && w'.tree.Some?
      && Stack(cfg, w'.made) && HeadOk(cfg, w')
      && (head.Some? ==> w'.made != [] && head.value == Tip(cfg, w'.made) && w'.row.workerParent == Some(Before(cfg, w'.made)))
      && (OnTree(w', parent) ==> w'.made == w.made)
  {
    AttemptMakesOne(cfg, w, parent, result, env);
    var (w', head) := Attempt(cfg, w, parent, result, env);
    hide Attempt;
    if w'.made != w.made {
      StackGrows(cfg, w.made, w'.tree.value.head);
    }
    hide Stack, RunnerCommit, Tip, Before, HeadOf;
  }

  /** Recovery can only accept the outstanding commit. */
  lemma RecoveryAcceptsTip(cfg: Config, w: World, result: WorkerResult, env: Env)
    requires w.tree.Some? && HeadOk(cfg, w) && w.row.workerParent.Some?
    requires w.tree.value.head != w.row.workerParent.value
    requires ValidateRecovered(cfg.git, cfg.task, w.row.workerParent.value, result, w.tree.value, env.git).Ok?
    ensures ValidateRecovered(cfg.git, cfg.task, w.row.workerParent.value, result, w.tree.value, env.git).value.0 == Tip(cfg, w.made)
    ensures w.made != [] && w.row.workerParent.value == Before(cfg, w.made)
  {
    RecoveredIsARunnerCommit(cfg.git, cfg.task, w.row.workerParent.value, result, w.tree.value, env.git);
  }

  lemma TipIsNotBefore(cfg: Config, made: seq<Sha>)
    requires Stack(cfg, made) && made != []
    ensures Tip(cfg, made) != Before(cfg, made)
  {
    assert made[|made| - 1].parents[0] == Before(cfg, made);
  }

  predicate StackCore(cfg: Config, w: World) { HeadOk(cfg, w) && PcOk(cfg, w) && PhaseOk(w) }

  lemma WorkPhase(w: World)
    requires Gated(w) && (w.pc.Committing? || w.pc.Recommitting?)
    ensures w.row.phase in {WorkerRunning, StoppedRun}
  {
  }

  lemma CommitStepKeepsStack(cfg: Config, w: World, env: Env)
    requires StackInv(cfg, w) && (w.pc.Committing? || w.pc.Recommitting?)
    ensures var w' := WorkerSteps(cfg, w, env); Stack(cfg, w'.made) && StackCore(cfg, w')
  {
    hide Attempt, Stack, Gated, HeadOk, CaughtUp, Tip, Before;
    WorkPhase(w);
    PcIsNotHead(cfg, w, BlockReading);
    if w.tree.Some? {
      AttemptStacksOne(cfg, w, w.pc.parent, w.pc.result, env);
      var w' := Attempt(cfg, w, w.pc.parent, w.pc.result, env).0;
      StillCaughtUp(w, w');
      PcIsNotHead(cfg, w', WorkerSteps(cfg, w, env).pc);
    }
  }

  lemma PcIsNotHead(cfg: Config, w: World, pc: Pc)
    requires HeadOk(cfg, w)
    ensures HeadOk(cfg, At(w, pc)) && (CaughtUp(w) <==> CaughtUp(At(w, pc)))
  {
  }

  lemma StillCaughtUp(w: World, w': World)
    requires CaughtUp(w) && w'.row == w.row
    ensures w'.made == w.made ==> CaughtUp(w')
  {
  }

  /** HEAD has left the named parent: the runner's commit is there, to be accepted. */
  lemma AcceptingKeepsStack(cfg: Config, w: World, env: Env)
    requires StackInv(cfg, w) && w.pc.RecoverCheck? && w.tree.Some? && w.row.workerParent.Some? && env.worker.Some?
    requires w.tree.value.head != w.row.workerParent.value
    ensures var w' := WorkerSteps(cfg, w, env); w'.made == w.made && StackCore(cfg, w')
  {
    hide Stack, Gated, ValidateRecovered, Tip, Before, HeadOf;
    var parent := w.row.workerParent.value;
    if ValidateRecovered(cfg.git, cfg.task, parent, env.worker.value, w.tree.value, env.git).Ok? {
      RecoveryAcceptsTip(cfg, w, env.worker.value, env);
    }
  }

  /** HEAD is the named parent, or nothing can be accepted: the attempt starts again, or the run is blocked. */
  lemma RetryingKeepsStack(cfg: Config, w: World, env: Env)
    requires StackInv(cfg, w) && w.pc.RecoverCheck?
    requires w.tree.None? || w.row.workerParent.None? || env.worker.None? || w.tree.value.head == w.row.workerParent.value
    ensures var w' := WorkerSteps(cfg, w, env); w'.made == w.made && StackCore(cfg, w')
  {
    if w.made != [] {
      TipIsNotBefore(cfg, w.made);
    }
    hide Stack, Gated, ValidateRecovered, Tip, Before, HeadOf;
  }

  lemma RecoverStepKeepsStack(cfg: Config, w: World, env: Env)
    requires StackInv(cfg, w) && w.pc.RecoverCheck?
    ensures var w' := WorkerSteps(cfg, w, env); w'.made == w.made && StackCore(cfg, w')
  {
    hide StackInv, StackCore, WorkerSteps;
    if w.tree.None? || w.row.workerParent.None? || env.worker.None? || w.tree.value.head == w.row.workerParent.value {
      RetryingKeepsStack(cfg, w, env);
    } else {
      AcceptingKeepsStack(cfg, w, env);
    }
  }

  lemma WorkerCheckKeepsStack(cfg: Config, w: World, env: Env)
    requires StackInv(cfg, w) && ChainInv(cfg, w) && w.pc.WorkerCheck?
    ensures var w' := WorkerSteps(cfg, w, env); w'.made == w.made && StackCore(cfg, w')
  {
    if w.made != [] {
      TipIsNotBefore(cfg, w.made);
      DeeperThanBase(cfg, w.made);
      if |w.made| > 1 {
        assert Before(cfg, w.made) == w.made[..|w.made| - 1][|w.made| - 2];
      }
    }
    hide Stack, Gated, Chain;
  }

  lemma {:induction false} DeeperThanBase(cfg: Config, made: seq<Sha>)
    requires Stack(cfg, made) && made != []
    ensures Depth(cfg.base) < Depth(Tip(cfg, made))
  {
    var before := Before(cfg, made);
    assert made[|made| - 1].parents[1..] == [];
    assert DepthOf(made[|made| - 1].parents) == Depth(before);
    if |made| > 1 {
      DeeperThanBase(cfg, made[..|made| - 1]);
    }
  }

  lemma SavingKeepsStack(cfg: Config, w: World, env: Env)
    requires StackInv(cfg, w) && w.pc.SavingHead?
    ensures var w' := WorkerSteps(cfg, w, env); w'.made == w.made && StackCore(cfg, w')
  {
    hide Stack, Gated;
  }

  lemma LaunchKeepsStack(cfg: Config, w: World, env: Env)
    requires StackInv(cfg, w) && (w.pc.Booking? || w.pc.Launching? || w.pc.AgentWorking?)
    ensures var w' := WorkerSteps(cfg, w, env); w'.made == w.made && StackCore(cfg, w')
  {
    hide Tip, Before, HeadOf, Stack, Gated;
  }

  lemma ResultKeepsStack(cfg: Config, w: World, env: Env)
    requires StackInv(cfg, w) && (w.pc.Completing? || w.pc.ClearingParent? || w.pc.Returning? || w.pc.RestoringParent?)
    ensures var w' := WorkerSteps(cfg, w, env); w'.made == w.made && StackCore(cfg, w')
  {
    hide Tip, Before, HeadOf, Stack, Gated;
  }

  lemma FixStepsKeepStack(cfg: Config, w: World, env: Env)
    requires StackInv(cfg, w) && (w.pc.FixCheck? || w.pc.RequestingFix?)
    ensures var w' := CiSteps(cfg, w, env); w'.made == w.made && StackCore(cfg, w')
  {
    hide Tip, Before, HeadOf, Stack, Gated, CleanOn;
  }

  lemma PublishKeepsStack(cfg: Config, w: World, env: Env)
    requires StackInv(cfg, w) && (w.pc.PublishCheck? || w.pc.Publishing? || w.pc.ToCi?)
    ensures var w' := CiSteps(cfg, w, env); w'.made == w.made && StackCore(cfg, w')
  {
    hide Tip, Before, HeadOf, Stack, Gated, OnTree;
  }

  lemma CiStepsKeepStack(cfg: Config, w: World, env: Env)
    requires StackInv(cfg, w) && (w.pc.CiCheck? || w.pc.CiWait? || w.pc.SavingCi? || w.pc.ToReview?)
    ensures var w' := CiSteps(cfg, w, env); w'.made == w.made && StackCore(cfg, w')
  {
    hide Tip, Before, HeadOf, Stack, Gated, Judge, OnTree;
  }

  lemma ReviewStartKeepsStack(cfg: Config, w: World, env: Env)
    requires StackInv(cfg, w) && (w.pc.ReviewCheck? || w.pc.ClearingStale? || w.pc.ReviewBudget?)
    ensures var w' := ReviewSteps(cfg, w, env); w'.made == w.made && StackCore(cfg, w')
  {
    hide Tip, HeadOf, Before, Stack, Gated, CleanOn;
  }

  lemma ReviewerKeepsStack(cfg: Config, w: World, env: Env)
    requires StackInv(cfg, w) && (w.pc.ReviewBooking? || w.pc.Reviewing? || w.pc.Finishing?)
    ensures var w' := ReviewSteps(cfg, w, env); w'.made == w.made && StackCore(cfg, w')
  {
    hide HeadOf, Before, Stack, Gated;
  }

  lemma VerdictKeepsStack(cfg: Config, w: World, env: Env)
    requires StackInv(cfg, w) && (w.pc.SavingReview? || w.pc.Deciding? || w.pc.SavingRounds?)
    ensures var w' := ReviewSteps(cfg, w, env); w'.made == w.made && StackCore(cfg, w')
  {
    hide Tip, HeadOf, Before, Stack, Gated;
  }

  lemma ReviewEndKeepsStack(cfg: Config, w: World, env: Env)
    requires StackInv(cfg, w) && (w.pc.ToFix? || w.pc.ToReady? || w.pc.ClearingReview?)
    ensures var w' := ReviewSteps(cfg, w, env); w'.made == w.made && StackCore(cfg, w')
  {
    hide Before, Stack, Gated;
  }

  lemma DeliveryKeepsStack(cfg: Config, w: World, env: Env)
    requires StackInv(cfg, w) && (w.pc.DeliverCheck? || w.pc.ToCompleted? || w.pc.Stopping? || w.pc.StopMoving?)
    ensures var w' := EndSteps(w, env); w'.made == w.made && StackCore(cfg, w')
  {
    hide Tip, Before, HeadOf, Stack, Gated;
  }

  lemma BlockKeepsStack(cfg: Config, w: World, env: Env)
    requires StackInv(cfg, w) && (w.pc.BlockReading? || w.pc.BlockWriting? || w.pc.BlockMoving?)
    ensures var w' := EndSteps(w, env); w'.made == w.made && StackCore(cfg, w')
  {
    hide Tip, Before, HeadOf, Stack, Gated;
  }

  lemma DispatchKeepsStack(cfg: Config, w: World)
    requires StackInv(cfg, w) && w.pc.LoopTop?
    ensures var w' := Dispatch(cfg, w); w'.made == w.made && StackCore(cfg, w')
  {
    hide Stack, Gated;
  }

  lemma WorkerKeepsStack(cfg: Config, w: World, env: Env)
    requires StackInv(cfg, w) && ChainInv(cfg, w) && WorkerPc(w.pc)
    ensures var w' := WorkerSteps(cfg, w, env); Stack(cfg, w'.made) && StackCore(cfg, w')
  {
    InitialPcsKeepStack(cfg, w);
    hide StackInv, StackCore, WorkerSteps, ChainInv, Stack;
    if w.pc.WorkerCheck? {
      WorkerCheckKeepsStack(cfg, w, env);
    } else if w.pc.RecoverCheck? {
      RecoverStepKeepsStack(cfg, w, env);
    } else if w.pc.Committing? || w.pc.Recommitting? {
      CommitStepKeepsStack(cfg, w, env);
    } else if w.pc.SavingHead? {
      SavingKeepsStack(cfg, w, env);
    } else if w.pc.Booking? || w.pc.Launching? || w.pc.AgentWorking? {
      LaunchKeepsStack(cfg, w, env);
    } else {
      ResultKeepsStack(cfg, w, env);
    }
  }

  lemma CiKeepsStack(cfg: Config, w: World, env: Env)
    requires StackInv(cfg, w) && CiPc(w.pc)
    ensures var w' := CiSteps(cfg, w, env); w'.made == w.made && StackCore(cfg, w')
  {
    hide StackInv, StackCore, CiSteps;
    if w.pc.FixCheck? || w.pc.RequestingFix? {
      FixStepsKeepStack(cfg, w, env);
    } else if w.pc.PublishCheck? || w.pc.Publishing? || w.pc.ToCi? {
      PublishKeepsStack(cfg, w, env);
    } else {
      CiStepsKeepStack(cfg, w, env);
    }
  }

  lemma ReviewKeepsStack(cfg: Config, w: World, env: Env)
    requires StackInv(cfg, w) && ReviewPc(w.pc)
    ensures var w' := ReviewSteps(cfg, w, env); w'.made == w.made && StackCore(cfg, w')
  {
    hide StackInv, StackCore, ReviewSteps;
    if w.pc.ReviewCheck? || w.pc.ClearingStale? || w.pc.ReviewBudget? {
      ReviewStartKeepsStack(cfg, w, env);
    } else if w.pc.ReviewBooking? || w.pc.Reviewing? || w.pc.Finishing? {
      ReviewerKeepsStack(cfg, w, env);
    } else if w.pc.SavingReview? || w.pc.Deciding? || w.pc.SavingRounds? {
      VerdictKeepsStack(cfg, w, env);
    } else {
      ReviewEndKeepsStack(cfg, w, env);
    }
  }

  lemma EndKeepsStack(cfg: Config, w: World, env: Env)
    requires StackInv(cfg, w) && EndPc(w.pc)
    ensures var w' := EndSteps(w, env); w'.made == w.made && StackCore(cfg, w')
  {
    hide StackInv, StackCore, EndSteps;
    if w.pc.BlockReading? || w.pc.BlockWriting? || w.pc.BlockMoving? {
      BlockKeepsStack(cfg, w, env);
    } else {
      DeliveryKeepsStack(cfg, w, env);
    }
  }

  lemma ControllerKeepsStack(cfg: Config, w: World, env: Env)
    requires StackInv(cfg, w) && ChainInv(cfg, w)
    ensures var w' := Controller(cfg, w, env); Stack(cfg, w'.made) && StackCore(cfg, w')
  {
    InitialPcsKeepStack(cfg, w);
    hide StackInv, StackCore, WorkerSteps, CiSteps, ReviewSteps, EndSteps, Dispatch, ChainInv, Stack;
    if WorkerPc(w.pc) {
      WorkerKeepsStack(cfg, w, env);
    } else if CiPc(w.pc) {
      CiKeepsStack(cfg, w, env);
    } else if EndPc(w.pc) {
      EndKeepsStack(cfg, w, env);
    } else if ReviewPc(w.pc) {
      ReviewKeepsStack(cfg, w, env);
    } else if w.pc.LoopTop? {
      DispatchKeepsStack(cfg, w);
    }
  }

  lemma InitialPcsKeepStack(cfg: Config, w: World)
    requires StackInv(cfg, w)
    ensures Stack(cfg, w.made) && StackCore(cfg, w)
    ensures w.pc.ToClaimed? ==> StackCore(cfg, Moved(w, ClaimedIssue, LoopTop))
  {
    hide Stack, Gated;
  }

  /** Nothing the stack speaks of differs. */
  predicate SameCommits(w: World, w': World) {
    && w'.made == w.made && w'.row.head == w.row.head && w'.row.workerParent == w.row.workerParent
    && (w.tree.Some? <==> w'.tree.Some?) && (w.tree.Some? ==> w'.tree.value.head == w.tree.value.head)
  }

  lemma SameCommitsKeepStack(cfg: Config, w: World, w': World)
    requires StackInv(cfg, w) && SameCommits(w, w')
    requires w'.pc == w.pc || w'.pc in {Idle, LoopTop, Stopping, BlockReading}
    requires w'.row.phase == w.row.phase || w'.row.phase in {StoppedRun, FixRequested, ReviewRunning}
             || (w'.row.phase == OwnerMerged && CaughtUp(w) && w.made != [])
    ensures StackCore(cfg, w')
  {
    hide Stack, Gated;
  }

  lemma OperatorKeepsCommits(cfg: Config, w: World, id: nat, env: Env, merged: Option<Sha>)
    requires id in w.operators
    ensures var w' := OperatorStep(cfg, w, id, env, merged);
      && SameCommits(w, w') && w'.pc == w.pc
      && (w'.row.phase == w.row.phase || w'.row.phase in {StoppedRun, FixRequested, ReviewRunning}
          || (w'.row.phase == OwnerMerged && w.operators[id].ResumeMoving?))
  {
    hide Judge;
  }

  /** What a pending resume depends on: nothing is outstanding. */
  ghost predicate ResumesCaughtUp(w: World) {
    forall id :: id in w.operators && AfterReview(w.operators[id]) ==> CaughtUp(w) && w.made != []
  }

  lemma OtherStepsKeepStack(cfg: Config, w: World, step: Step)
    requires StackInv(cfg, w) && ResumesCaughtUp(w) && !step.MoveHead? && !step.Advance?
    ensures var w' := Do(cfg, w, step); w'.made == w.made && StackCore(cfg, w')
  {
    hide StackInv, StackCore, Stack, OperatorStep, CaughtUp;
    if step.Operate? && step.id in w.operators {
      OperatorKeepsCommits(cfg, w, step.id, step.env, step.merged);
      if w.operators[step.id].ResumeMoving? {
        assert AfterReview(w.operators[step.id]);
      }
    }
    SameCommitsKeepStack(cfg, w, Do(cfg, w, step));
  }

  lemma SettledControllerCommitsNothing(cfg: Config, w: World, env: Env)
    requires !Mutating(w.pc)
    ensures var w' := Controller(cfg, w, env); w'.made == w.made && w'.row.head == w.row.head
  {
    hide CiSteps, CleanOn, Attempt, ValidateRecovered, WorkerMayStart;
  }

  lemma SettledCommitsNothing(cfg: Config, w: World, step: Step)
    requires !Mutating(w.pc)
    ensures var w' := Do(cfg, w, step); w'.made == w.made && w'.row.head == w.row.head
  {
    hide Controller, OperatorStep;
    if step.Advance? {
      SettledControllerCommitsNothing(cfg, w, step.env);
    } else if step.Operate? && step.id in w.operators {
      OperatorKeepsCommits(cfg, w, step.id, step.env, step.merged);
    }
  }

  lemma GateIsCaughtUp(cfg: Config, w: World)
    requires StackInv(cfg, w) && AtGate(w.row.phase)
    ensures CaughtUp(w) && w.made != []
  {
    hide Stack, Gated;
  }

  lemma SettledPc(cfg: Config, w: World, id: nat)
    requires PresentInv(cfg, w) && id in w.operators && AfterReview(w.operators[id])
    ensures !Mutating(w.pc)
  {
    assert PresentOperator(w, w.operators[id]);
    hide CoreInv, GateHolds;
  }

  lemma OperatorChange(cfg: Config, w: World, id: nat, env: Env, merged: Option<Sha>)
    requires id in w.operators
    ensures var w' := OperatorStep(cfg, w, id, env, merged);
      id in w'.operators && (AfterReview(w'.operators[id]) ==> AfterReview(w.operators[id]) || w.row.phase == ReadyForOwner)
  {
    hide Judge, CleanOn;
  }

  lemma OperatorsChange(cfg: Config, w: World, step: Step, id: nat)
    requires id in Do(cfg, w, step).operators && AfterReview(Do(cfg, w, step).operators[id])
    ensures (id in w.operators && AfterReview(w.operators[id])) || w.row.phase == ReadyForOwner
  {
    hide Controller, OperatorStep;
    if step.Advance? {
      ControllerKeepsOperators(cfg, w, step.env);
    } else if step.Operate? && step.id in w.operators {
      CommandFrame(cfg, w, step.id, step.env, step.merged);
      OperatorChange(cfg, w, step.id, step.env, step.merged);
    }
  }

  lemma WorkerKeepsOperators(cfg: Config, w: World, env: Env)
    ensures WorkerSteps(cfg, w, env).operators == w.operators
  {
    hide ValidateAndCommit, ValidateRecovered, WorkerMayStart;
  }

  lemma ControllerKeepsOperators(cfg: Config, w: World, env: Env)
    ensures Controller(cfg, w, env).operators == w.operators
  {
    WorkerKeepsOperators(cfg, w, env);
    hide WorkerSteps, Judge, CleanOn;
  }

  /** A resume starts from READY_FOR_OWNER, and while it is pending nothing is committed. */
  lemma StepKeepsResumesCaughtUp(cfg: Config, w: World, step: Step)
    requires PresentInv(cfg, w) && StackInv(cfg, w) && ResumesCaughtUp(w)
    ensures ResumesCaughtUp(Do(cfg, w, step))
  {
    var w' := Do(cfg, w, step);
    forall id | id in w'.operators && AfterReview(w'.operators[id]) ensures CaughtUp(w') && w'.made != [] {
      OperatorsChange(cfg, w, step, id);
      hide StackInv, PresentInv, Do;
      if id in w.operators && AfterReview(w.operators[id]) {
        SettledPc(cfg, w, id);
        SettledCommitsNothing(cfg, w, step);
      } else {
        GateIsCaughtUp(cfg, w);
        ReadyPc(cfg, w);
        SettledCommitsNothing(cfg, w, step);
      }
    }
  }

  lemma ReadyPc(cfg: Config, w: World)
    requires StackInv(cfg, w) && w.row.phase == ReadyForOwner
    ensures !Mutating(w.pc)
  {
    hide Stack, HeadOk, PcOk;
  }

  ghost predicate OnlyRunnerCommits(schedule: seq<Step>) {
    forall i :: 0 <= i < |schedule| ==> !schedule[i].MoveHead?
  }

  lemma {:induction false} EveryRunKeepsStack(cfg: Config, schedule: seq<Step>)
    requires PresentErrors(cfg, schedule) && OnlyRunnerCommits(schedule)
    ensures StackInv(cfg, Run(cfg, schedule)) && ResumesCaughtUp(Run(cfg, schedule))
  {
    if schedule != [] {
      var front, step := schedule[..|schedule| - 1], schedule[|schedule| - 1];
      var w := Run(cfg, front);
      hide ResumesCaughtUp, PresentErrors, StackCore, PresentInv;
      PresentFront(cfg, schedule);
      EveryRunKeepsStack(cfg, front);
      EveryPresentRunHolds(cfg, front);
      EveryPresentRunHolds(cfg, schedule);
      EveryRunKeepsChain(cfg, front);
      StepKeepsStack(cfg, w, step);
      StepKeepsResumesCaughtUp(cfg, w, step);
      FinishStack(cfg, Run(cfg, schedule));
    } else {
      StartHolds(cfg, NEW_RUN);
    }
  }

  lemma StepKeepsStack(cfg: Config, w: World, step: Step)
    requires StackInv(cfg, w) && ChainInv(cfg, w) && ResumesCaughtUp(w) && !step.MoveHead?
    ensures var w' := Do(cfg, w, step); Stack(cfg, w'.made) && StackCore(cfg, w')
  {
    hide StackCore, Stack, ChainInv, ResumesCaughtUp;
    if step.Advance? {
      hide StackInv, Controller;
      ControllerKeepsStack(cfg, w, step.env);
    } else {
      InitialPcsKeepStack(cfg, w);
      hide StackInv;
      OtherStepsKeepStack(cfg, w, step);
    }
  }

  lemma FinishStack(cfg: Config, w: World)
    requires Stack(cfg, w.made) && StackCore(cfg, w) && PresentInv(cfg, w)
    ensures StackInv(cfg, w)
  {
  }

  /** A crash between the git commit and the store write neither loses that commit nor stacks a second
      one: in every reachable state the runner's commits form one stack on the base, HEAD is its top,
      and the row has accepted all of them or all but the last, whose parent it still names. From the
      accepted result on - published, waiting for CI, or at the owner gate - the accepted head is the
      top of the stack. */
  lemma CommitsAreNeitherLostNorStacked(cfg: Config, schedule: seq<Step>)
    requires PresentErrors(cfg, schedule) && OnlyRunnerCommits(schedule)
    ensures var w := Run(cfg, schedule);
      && Stack(cfg, w.made)
      && (w.tree.Some? ==> w.tree.value.head == Tip(cfg, w.made))
      && (CaughtUp(w) || OneBehind(cfg, w))
      && (w.row.phase in {WorkerComplete, CiWaiting, ReadyForOwner, OwnerMerged, CompletedRun} ==>
            w.made != [] && w.row.head == Some(w.made[|w.made| - 1]))
  {
    EveryRunKeepsStack(cfg, schedule);
  }

  /** A step that leaves the list of commits alone, or a commit attempt that adds one. */
  predicate CommitsAtMostOne(w: World, w': World) {
    w'.made == w.made || ((w.pc.Committing? || w.pc.Recommitting?) && |w'.made| == |w.made| + 1 && w'.made[..|w.made|] == w.made)
  }

  lemma WorkerCommits(cfg: Config, w: World, env: Env)
    requires WorkerPc(w.pc)
    ensures CommitsAtMostOne(w, WorkerSteps(cfg, w, env))
  {
    hide ValidateAndCommit, ValidateRecovered, WorkerMayStart;
  }

  lemma OthersCommitNothing(cfg: Config, w: World, env: Env)
    ensures CiPc(w.pc) ==> CiSteps(cfg, w, env).made == w.made
    ensures ReviewPc(w.pc) ==> ReviewSteps(cfg, w, env).made == w.made
    ensures EndPc(w.pc) ==> EndSteps(w, env).made == w.made
    ensures w.pc.LoopTop? ==> Dispatch(cfg, w).made == w.made
  {
    hide Judge, CleanOn;
  }

  lemma ControllerCommits(cfg: Config, w: World, env: Env)
    ensures CommitsAtMostOne(w, Controller(cfg, w, env))
  {
    hide WorkerSteps, CiSteps, ReviewSteps, EndSteps, Dispatch;
    if WorkerPc(w.pc) {
      hide CommitsAtMostOne;
      WorkerCommits(cfg, w, env);
    } else {
      OthersCommitNothing(cfg, w, env);
    }
  }

  lemma CommittingIsCaughtUp(cfg: Config, w: World)
    requires StackInv(cfg, w) && (w.pc.Committing? || w.pc.Recommitting?)
    ensures CaughtUp(w)
  {
  }

  /** A commit happens only when everything before it was accepted, so no result is committed twice. */
  lemma EveryCommitFollowsAnAcceptedOne(cfg: Config, schedule: seq<Step>, step: Step)
    requires PresentErrors(cfg, schedule) && OnlyRunnerCommits(schedule) && !step.MoveHead?
    requires var w := Run(cfg, schedule); Do(cfg, w, step).made != w.made
    ensures var w := Run(cfg, schedule); var w' := Do(cfg, w, step);
      && CaughtUp(w) && step.Advance? && (w.pc.Committing? || w.pc.Recommitting?)
      && |w'.made| == |w.made| + 1 && w'.made[..|w.made|] == w.made
  {
    EveryRunKeepsStack(cfg, schedule);
    var w := Run(cfg, schedule);
    hide Run, StackInv, CaughtUp, Controller, OperatorStep, ResumesCaughtUp;
    if step.Advance? {
      ControllerCommits(cfg, w, step.env);
      if w.pc.Committing? || w.pc.Recommitting? {
        CommittingIsCaughtUp(cfg, w);
      }
    } else if step.Operate? && step.id in w.operators {
      OperatorCommitsNothing(cfg, w, step.id, step.env, step.merged);
    }
  }

  lemma OperatorCommitsNothing(cfg: Config, w: World, id: nat, env: Env, merged: Option<Sha>)
    requires id in w.operators
    ensures OperatorStep(cfg, w, id, env, merged).made == w.made
  {
    hide Judge;
  }

  /** The next steps of a controller that is started again over the same durable result. */
  function Restarted(cfg: Config, w: World, later: Env): World {
    var up := Do(cfg, Do(cfg, w, Crash), StartController);
    Do(cfg, Do(cfg, Do(cfg, up, Advance(later)), Advance(later)), Advance(later))
  }

  lemma RestartSavesTheCommit(cfg: Config, w: World, result: WorkerResult, later: Env)
    requires w.row.phase == WorkerRunning && w.row.desired == KeepRunning && w.row.workerParent.Some? && w.tree.Some?
    requires w.tree.value.head != w.row.workerParent.value && later.worker == Some(result)
    requires var r := ValidateRecovered(cfg.git, cfg.task, w.row.workerParent.value, result, w.tree.value, later.git);
      r.Ok? && r.value.0 == w.tree.value.head
    ensures var w' := Restarted(cfg, w, later);
      w'.row.head == Some(w.tree.value.head) && w'.made == w.made && w'.tree == w.tree && w'.pc.Completing?
  {
    hide ValidateRecovered, CiSteps, ReviewSteps, EndSteps;
  }

  lemma CommitMovesHead(cfg: Config, w: World, env: Env)
    requires w.tree.Some? && (w.pc.Committing? || w.pc.Recommitting?) && WorkerSteps(cfg, w, env).pc.SavingHead?
    ensures var w' := WorkerSteps(cfg, w, env);
      && ValidateAndCommit(cfg.git, cfg.task, w.pc.parent, w.pc.result, w.tree.value, env.git).1.Ok?
      && w'.row == w.row && w'.tree == Some(ValidateAndCommit(cfg.git, cfg.task, w.pc.parent, w.pc.result, w.tree.value, env.git).0)
      && w'.tree.value.head == w'.pc.head != w.pc.parent
  {
    CommitIsARunnerCommit(cfg.git, cfg.task, w.pc.parent, w.pc.result, w.tree.value, env.git);
    hide ValidateAndCommit, RunnerCommit, PathsOk;
  }

  /** Nothing is lost on the machine: if the controller dies after the git commit and before the store
      write, and is started again with the same durable result, it stores exactly that commit and makes
      no other. */
  lemma CrashAfterCommitIsRecovered(cfg: Config, schedule: seq<Step>, env: Env, later: Env)
    requires PresentErrors(cfg, schedule) && OnlyRunnerCommits(schedule)
    requires var w := Run(cfg, schedule);
      && (w.pc.Committing? || w.pc.Recommitting?) && Do(cfg, w, Advance(env)).pc.SavingHead?
      && w.row.phase == WorkerRunning && w.row.desired == KeepRunning
      && later.worker == Some(w.pc.result) && (cfg.task.isUi ==> later.git.controlFilesOk)
    ensures var w1 := Do(cfg, Run(cfg, schedule), Advance(env));
      var w' := Restarted(cfg, w1, later);
      w'.row.head == Some(w1.pc.head) && w'.made == w1.made && w'.pc.Completing?
  {
    EveryRunKeepsStack(cfg, schedule);
    EveryRunKeepsChain(cfg, schedule);
    var w := Run(cfg, schedule);
    CommitterHasParent(cfg, w);
    hide Run, StackInv, ChainInv, ResumesCaughtUp, Restarted, ValidateAndCommit, ValidateRecovered, PresentErrors;
    assert w.tree.Some?;
    CommitMovesHead(cfg, w, env);
    var w1 := Do(cfg, w, Advance(env));
    assert w1 == WorkerSteps(cfg, w, env);
    RecoveryAcceptsTheCommit(cfg.git, cfg.task, w.pc.parent, w.pc.result, w.tree.value, env.git, later.git);
    CommitIsARunnerCommit(cfg.git, cfg.task, w.pc.parent, w.pc.result, w.tree.value, env.git);
    RestartSavesTheCommit(cfg, w1, w.pc.result, later);
  }

  lemma CommitterHasParent(cfg: Config, w: World)
    requires StackInv(cfg, w) && ChainInv(cfg, w) && (w.pc.Committing? || w.pc.Recommitting?)
    ensures w.row.workerParent == Some(w.pc.parent) && w.pc.result.success
  {
  }

  /** A crash between the move to WORKER_COMPLETE and the clearing of the parent leaves the old parent in
      the row. Nothing loses by it at once, but the next fix round then refuses to start: it may start
      exactly when the parent is cleared or is the current HEAD. */
  lemma StaleParentBlocksTheNextFix(cfg: Config, w: World, env: Env)
    requires w.pc == WorkerCheck(FixRequested) && w.tree.Some? && w.row.head == Some(w.tree.value.head)
    requires w.row.invocations < cfg.maxInvocations && w.tree.value.Clean()
    ensures Controller(cfg, w, env).pc.Booking? <==>
            (w.row.workerParent.None? || w.row.workerParent == Some(w.tree.value.head))
    ensures !Controller(cfg, w, env).pc.Booking? ==> Controller(cfg, w, env).pc == BlockReading
  {
  }

  lemma CrashStopsTheController(cfg: Config, w: World)
    ensures Do(cfg, w, Crash) == At(w, Idle)
  {
  }

  lemma ClearingHasOldParent(cfg: Config, w: World)
    requires StackInv(cfg, w) && w.pc.ClearingParent?
    ensures w.row.head == Some(Tip(cfg, w.made)) && w.row.workerParent.Some? && w.row.workerParent != w.row.head
  {
    TipIsNotBefore(cfg, w.made);
    hide Stack, Gated;
  }

  /** Every such crash leaves exactly that: the accepted head, and a parent that is not it. */
  lemma CrashKeepsStaleParent(cfg: Config, schedule: seq<Step>)
    requires PresentErrors(cfg, schedule) && OnlyRunnerCommits(schedule)
    requires Run(cfg, schedule).pc.ClearingParent?
    ensures var w := Run(cfg, schedule + [Crash]);
      && w.pc.Idle? && w.row.head == Some(Tip(cfg, w.made))
      && w.row.workerParent.Some? && w.row.workerParent != w.row.head
  {
    assert (schedule + [Crash])[..|schedule|] == schedule;
    assert Run(cfg, schedule + [Crash]) == Do(cfg, Run(cfg, schedule), Crash);
    hide Run, Do, StackInv;
    EveryRunKeepsStack(cfg, schedule);
    CrashStopsTheController(cfg, Run(cfg, schedule));
    ClearingHasOldParent(cfg, Run(cfg, schedule));
  }
}
