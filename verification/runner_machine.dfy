/** `orchestrator/service.py`: the run loop as one controller that may crash between any two store
    writes, beside operator commands with stale snapshots, over one run's checkpoint columns and its
    worktree. */
module RunnerMachine {
  import opened Common
  import opened RunnerModels
  import opened RunnerGit
  import opened RunnerCi

  /** The frozen task. `ciErrors` are the error texts that say a required check failed. */
  datatype Config = Config(
    base: Sha,
    git: GitRules,
    task: GitTask,
    required: seq<Text>,
    maxInvocations: nat,
    maxFixRounds: nat,
    ciErrors: iset<Text>)

  datatype ReviewVerdict = Approve | RequestChanges | CannotReview

  datatype ReviewResult = ReviewResult(verdict: ReviewVerdict, head: Sha)

  /** What the controller observes in one step: git, an agent's result or the durable file that holds
      it, one CI poll, the pull request, and the text of an error. */
  datatype Env = Env(
    git: GitEnv,
    worker: Option<WorkerResult>,
    review: Option<ReviewResult>,
    poll: Poll,
    pr: nat,
    error: Text)

  /** The next store write, git command or decision of the controller, with the locals it carries. */
  datatype Pc =
    | Idle
    | LoopTop
    | ToClaimed
    | WorkerCheck(phase: RunPhase)
    | Booking(phase: RunPhase, parent: Sha, number: nat)
    | Launching(phase: RunPhase, parent: Sha)
    | AgentWorking(parent: Sha)
    | Committing(parent: Sha, result: WorkerResult)
    | RecoverCheck
    | Recommitting(parent: Sha, result: WorkerResult, rounds: nat)
    | SavingHead(head: Sha)
    | Completing
    | ClearingParent
    | Returning(rounds: nat, parent: Sha)
    | RestoringParent(parent: Sha)
    | PublishCheck(head: Sha)
    | Publishing
    | ToCi
    | CiCheck(head: Sha)
    | CiWait(head: Sha)
    | SavingCi(head: Sha, run: nat)
    | ToReview(head: Sha)
    | FixCheck(head: Sha, run: nat)
    | RequestingFix(phase: RunPhase, head: Sha, rounds: nat, run: nat)
    | ReviewCheck
    | ClearingStale(head: Sha, rounds: nat)
    | ReviewBudget(head: Sha, rounds: nat)
    | ReviewBooking(head: Sha, rounds: nat, number: nat)
    | Reviewing(head: Sha, rounds: nat)
    | Finishing(head: Sha, rounds: nat, review: ReviewResult)
    | SavingReview(head: Sha, rounds: nat, review: ReviewResult)
    | Deciding(head: Sha, rounds: nat, verdict: ReviewVerdict)
    | SavingRounds(head: Sha, rounds: nat)
    | ToFix(head: Sha)
    | ToReady(head: Sha)
    | ClearingReview
    | DeliverCheck(head: Sha)
    | ToCompleted(head: Sha)
    | Stopping
    | StopMoving
    | BlockReading
    | BlockWriting
    | BlockMoving

  /** Commands of other processes, each with what it read before it writes. */
  datatype Operator =
    | ResumeReading
    | ResumeMerging(head: Sha)
    | ResumeMoving(head: Sha)
    | RecoverReading
    | RecoverWaiting(head: Sha)
    | RecoverPassed(head: Sha, run: nat)
    | RecoverFailed(head: Sha, run: nat)
    | RecoverFixing(phase: RunPhase, head: Sha, rounds: nat, run: nat)
    | StopReading
    | StopWriting
    | Finished

  /** `made` lists the runner's commits in order; `ciPassed` and `approved` are the heads for which
      CI evidence and a PASS review were accepted; `confirmed` is the head whose merge the last
      owner-merge write had confirmed. */
  datatype World = World(
    row: WorkColumns,
    tree: Option<Tree>,
    pc: Pc,
    operators: map<nat, Operator>,
    made: seq<Sha>,
    ciPassed: set<Sha>,
    approved: set<Sha>,
    confirmed: Option<Sha>)

  const NEW_RUN := World(NEW_WORK, None, Idle, map[], [], {}, {}, None)

  /** A step of a schedule. `Raise` is any exception the code can meet at that point; `Interrupted` is
      an owner's pause or stop observed while an agent or CI runs; `Edit` and `MoveHead` are what the
      agent, or anyone, does to the worktree. */
  datatype Step =
    | StartController
    | Advance(env: Env)
    | Raise
    | Interrupted
    | Crash
    | SetDesired(desired: DesiredState)
    | Edit(modified: set<Text>, staged: set<Text>)
    | MoveHead(head: Sha)
    | Command(id: nat, operator: Operator)
    | Operate(id: nat, env: Env, merged: Option<Sha>)

  predicate TerminalPhase(p: RunPhase) {
    p in {BlockedRun, CompletedRun, ReadyForOwner, MergePendingConfirmation, StoppedRun}
  }

  predicate FinalPhase(p: RunPhase) { p in {BlockedRun, CompletedRun, StoppedRun} }

  function At(w: World, pc: Pc): World { w.(pc := pc) }

  function Fail(w: World): World { w.(pc := BlockReading) }

  function Moved(w: World, phase: RunPhase, pc: Pc): World {
    w.(row := w.row.(phase := phase), pc := pc)
  }

  predicate OnTree(w: World, head: Sha) { w.tree.Some? && w.tree.value.head == head }

  predicate CleanOn(w: World, head: Sha) { OnTree(w, head) && w.tree.value.Clean() }

  /** One pass of `_run_loop` up to the branch it takes. */
  function Dispatch(cfg: Config, w: World): World {
    var row := w.row;
    if TerminalPhase(row.phase) then At(w, Idle)
    else if row.desired == Pause then At(w, Idle)
    else if row.desired == Stop then At(w, Stopping)
    else
      match row.phase
      case CreatedRun =>
        if w.tree.Some? && w.tree.value.branch != cfg.task.branch then Fail(w)
        else
          var tree := if w.tree.Some? then w.tree.value else Tree(cfg.task.branch, cfg.base, {}, {});
          At(w.(tree := Some(tree)), ToClaimed)
      case ClaimedIssue => At(w, WorkerCheck(ClaimedIssue))
      case FixRequested => At(w, WorkerCheck(FixRequested))
      case WorkerRunning => At(w, RecoverCheck)
      case WorkerComplete => if row.head.Some? then At(w, PublishCheck(row.head.value)) else Fail(w)
      case CiWaiting => if row.head.Some? then At(w, CiCheck(row.head.value)) else Fail(w)
      case ReviewRunning => At(w, ReviewCheck)
      case OwnerMerged => if row.head.Some? then At(w, DeliverCheck(row.head.value)) else Fail(w)
      case _ => Fail(w)
  }

  /** The guards of `_run_worker`. */
  predicate WorkerMayStart(cfg: Config, w: World, phase: RunPhase)
    requires w.tree.Some?
  {
    var row, tree := w.row, w.tree.value;
    && row.invocations < cfg.maxInvocations
    && (row.workerParent.Some? ==> row.workerParent.value == tree.head)
    && (phase == ClaimedIssue ==> tree.head == cfg.base)
    && (phase == FixRequested ==> row.head == Some(tree.head))
    && (row.workerParent.None? ==> tree.Clean())
    && (row.workerParent.Some? && tree.Pending() != {} ==> PathsOk(cfg.git, cfg.task, tree.Pending()))
  }

  /** A commit attempt: what it leaves in the worktree, and the commit if it was made and accepted. */
  function Attempt(cfg: Config, w: World, parent: Sha, result: WorkerResult, env: Env): (World, Option<Sha>)
    requires w.tree.Some?
  {
    var (tree, r) := ValidateAndCommit(cfg.git, cfg.task, parent, result, w.tree.value, env.git);
    var made := if tree.head != w.tree.value.head then w.made + [tree.head] else w.made;
    (w.(tree := Some(tree), made := made), if r.Ok? then Some(r.value.0) else None)
  }

  function WorkerSteps(cfg: Config, w: World, env: Env): World {
    var row := w.row;
    match w.pc
    case WorkerCheck(phase) =>
      if w.tree.None? || !WorkerMayStart(cfg, w, phase) then Fail(w)
      else At(w, Booking(phase, w.tree.value.head, row.invocations + 1))
    case Booking(phase, parent, number) =>
      At(w.(row := row.(invocations := number, workerParent := Some(parent))), Launching(phase, parent))
    case Launching(_, parent) => Moved(w, WorkerRunning, AgentWorking(parent))
    case AgentWorking(parent) =>
      if env.worker.None? then w
      else if !env.worker.value.success then Fail(w)
      else At(w, Committing(parent, env.worker.value))
    case Committing(parent, result) =>
      if w.tree.None? then Fail(w)
      else
        var (w', head) := Attempt(cfg, w, parent, result, env);
        if head.Some? then At(w', SavingHead(head.value)) else Fail(w')
    case RecoverCheck =>
      if row.workerParent.None? || w.tree.None? then Fail(w)
      else
        var parent := row.workerParent.value;
        if w.tree.value.head != parent then
          if env.worker.None? then Fail(w)
          else
            (match ValidateRecovered(cfg.git, cfg.task, parent, env.worker.value, w.tree.value, env.git)
             case Ok((head, _)) => At(w, SavingHead(head))
             case Err(_) => Fail(w))
        else if env.worker.Some? then
          if !env.worker.value.success then Fail(w) else At(w, Recommitting(parent, env.worker.value, row.fixRounds))
        else At(w, Returning(row.fixRounds, parent))
    case Recommitting(parent, result, rounds) =>
      if w.tree.None? then Fail(w)
      else
        var (w', head) := Attempt(cfg, w, parent, result, env);
        if head.Some? then At(w', SavingHead(head.value))
        else if OnTree(w', parent) then At(w', Returning(rounds, parent))
        else Fail(w')
    case SavingHead(head) => At(w.(row := row.(head := Some(head), reviewedHead := None)), Completing)
    case Completing => Moved(w, WorkerComplete, ClearingParent)
    case ClearingParent => At(w.(row := row.(workerParent := None)), LoopTop)
    case Returning(rounds, parent) =>
      Moved(w, if rounds == 0 then ClaimedIssue else FixRequested, RestoringParent(parent))
    case RestoringParent(parent) => At(w.(row := row.(workerParent := Some(parent))), LoopTop)
    case _ => w
  }

  /** `_checkpoint_control`, with somewhere to go when the owner wants the run to continue. */
  function Checkpoint(w: World, otherwise: Pc): World {
    match w.row.desired
    case Pause => At(w, Idle)
    case Stop => At(w, Stopping)
    case KeepRunning => At(w, otherwise)
  }

  function CiSteps(cfg: Config, w: World, env: Env): World {
    var row := w.row;
    match w.pc
    case PublishCheck(head) => if OnTree(w, head) then At(w, Publishing) else Fail(w)
    case Publishing => At(w.(row := row.(pr := Some(env.pr), reviewedHead := None, ciRun := None)), ToCi)
    case ToCi => Moved(w, CiWaiting, LoopTop)
    case CiCheck(head) => if OnTree(w, head) then At(w, CiWait(head)) else Fail(w)
    case CiWait(head) =>
      (match Judge(cfg.required, head, env.poll)
       case Passed(run) => At(w.(ciPassed := w.ciPassed + {head}), SavingCi(head, run))
       case FailedChecks(run, _) => At(w, FixCheck(head, run))
       case PausedWait => At(w, Idle)
       case StoppedWait => At(w, Stopping)
       case _ => w)
    case SavingCi(head, run) => At(w.(row := row.(ciRun := Some(run))), ToReview(head))
    case ToReview(_) => Moved(w, ReviewRunning, LoopTop)
    case FixCheck(head, run) =>
      if row.head != Some(head) || row.phase !in {CiWaiting, BlockedRun} || !CleanOn(w, head) || row.fixRounds >= cfg.maxFixRounds then Fail(w)
      else At(w, RequestingFix(row.phase, head, row.fixRounds, run))
    case RequestingFix(phase, head, rounds, run) =>
      if FixExpected(row, phase, head, rounds) then At(w.(row := WithFix(row, rounds + 1, run)), LoopTop)
      else Checkpoint(w, BlockReading)
    case _ => w
  }

  function ReviewSteps(cfg: Config, w: World, env: Env): World {
    var row := w.row;
    match w.pc
    case ReviewCheck =>
      if row.head.None? || !CleanOn(w, row.head.value) then Fail(w)
      else if row.reviewStarted == row.head then
        if env.review.Some? then At(w, Finishing(row.head.value, row.fixRounds, env.review.value))
        else At(w, ClearingStale(row.head.value, row.fixRounds))
      else At(w, ReviewBudget(row.head.value, row.fixRounds))
    case ClearingStale(head, rounds) => At(w.(row := row.(reviewStarted := None)), ReviewBudget(head, rounds))
    case ReviewBudget(head, rounds) =>
      if row.invocations >= cfg.maxInvocations then Fail(w) else At(w, ReviewBooking(head, rounds, row.invocations + 1))
    case ReviewBooking(head, rounds, number) =>
      At(w.(row := row.(invocations := number, reviewStarted := Some(head))), Reviewing(head, rounds))
    case Reviewing(head, rounds) =>
      if env.review.None? then w else At(w, Finishing(head, rounds, env.review.value))
    case Finishing(head, rounds, review) =>
      if review.head != head || !CleanOn(w, head) then Fail(w) else At(w, SavingReview(head, rounds, review))
    case SavingReview(head, rounds, review) =>
      var approved := if review.verdict == Approve then w.approved + {head} else w.approved;
      At(w.(row := row.(reviewedHead := Some(review.head)), approved := approved), Deciding(head, rounds, review.verdict))
    case Deciding(head, rounds, verdict) =>
      (match verdict
       case CannotReview => Fail(w)
       case RequestChanges => if rounds >= cfg.maxFixRounds then Fail(w) else At(w, SavingRounds(head, rounds + 1))
       case Approve => At(w, ToReady(head)))
    case SavingRounds(head, rounds) => At(w.(row := row.(fixRounds := rounds)), ToFix(head))
    case ToFix(_) => Moved(w, FixRequested, ClearingReview)
    case ToReady(_) => Moved(w, ReadyForOwner, ClearingReview)
    case ClearingReview => At(w.(row := row.(reviewStarted := None)), LoopTop)
    case _ => w
  }

  function EndSteps(w: World, env: Env): World {
    match w.pc
    case DeliverCheck(head) => if w.row.reviewedHead != Some(head) then Fail(w) else At(w, ToCompleted(head))
    case ToCompleted(_) => Moved(w, CompletedRun, LoopTop)
    case Stopping => if FinalPhase(w.row.phase) then At(w, Idle) else At(w, StopMoving)
    case StopMoving => Moved(w, StoppedRun, Idle)
    case BlockReading => if TerminalPhase(w.row.phase) then At(w, Idle) else At(w, BlockWriting)
    case BlockWriting => At(w.(row := w.row.(lastError := Some(env.error))), BlockMoving)
    case BlockMoving => Moved(w, BlockedRun, Idle)
    case _ => w
  }

  predicate WorkerPc(pc: Pc) {
    || pc.WorkerCheck? || pc.Booking? || pc.Launching? || pc.AgentWorking? || pc.Committing? || pc.RecoverCheck?
    || pc.Recommitting? || pc.SavingHead? || pc.Completing? || pc.ClearingParent? || pc.Returning? || pc.RestoringParent?
  }

  predicate CiPc(pc: Pc) {
    || pc.PublishCheck? || pc.Publishing? || pc.ToCi? || pc.CiCheck? || pc.CiWait? || pc.SavingCi? || pc.ToReview?
    || pc.FixCheck? || pc.RequestingFix?
  }

  predicate ReviewPc(pc: Pc) {
    || pc.ReviewCheck? || pc.ClearingStale? || pc.ReviewBudget? || pc.ReviewBooking? || pc.Reviewing? || pc.Finishing?
    || pc.SavingReview? || pc.Deciding? || pc.SavingRounds? || pc.ToFix? || pc.ToReady? || pc.ClearingReview?
  }

  predicate EndPc(pc: Pc) {
    || pc.DeliverCheck? || pc.ToCompleted? || pc.Stopping? || pc.StopMoving? || pc.BlockReading? || pc.BlockWriting?
    || pc.BlockMoving?
  }

  /** The controller's next step. */
  function Controller(cfg: Config, w: World, env: Env): World {
    if w.pc.Idle? then w
    else if w.pc.LoopTop? then Dispatch(cfg, w)
    else if w.pc.ToClaimed? then Moved(w, ClaimedIssue, LoopTop)
    else if WorkerPc(w.pc) then WorkerSteps(cfg, w, env)
    else if CiPc(w.pc) then CiSteps(cfg, w, env)
    else if EndPc(w.pc) then EndSteps(w, env)
    else ReviewSteps(cfg, w, env)
  }

  function OperatorAt(w: World, id: nat, o: Operator): World { w.(operators := w.operators[id := o]) }

  /** The next step of an operator command. */
  function OperatorStep(cfg: Config, w: World, id: nat, env: Env, merged: Option<Sha>): World
    requires id in w.operators
  {
    var row := w.row;
    match w.operators[id]
    case ResumeReading =>
      if row.phase == ReadyForOwner && row.pr.Some? && row.head.Some? && row.reviewedHead == row.head then
        OperatorAt(w, id, ResumeMerging(row.head.value))
      else OperatorAt(w, id, Finished)
    case ResumeMerging(head) =>
      if merged.None? then OperatorAt(w, id, Finished)
      else OperatorAt(w.(row := row.(desired := KeepRunning, mergeSha := merged)), id, ResumeMoving(head))
    case ResumeMoving(head) => OperatorAt(w.(row := row.(phase := OwnerMerged), confirmed := Some(head)), id, Finished)
    case RecoverReading =>
      if row.phase == BlockedRun && row.lastError.Some? && row.lastError.value in cfg.ciErrors && row.head.Some? && row.pr.Some?
         && CleanOn(w, row.head.value) then
        OperatorAt(w, id, RecoverWaiting(row.head.value))
      else OperatorAt(w, id, Finished)
    case RecoverWaiting(head) =>
      (match Judge(cfg.required, head, env.poll)
       case Passed(run) => OperatorAt(w.(ciPassed := w.ciPassed + {head}), id, RecoverPassed(head, run))
       case FailedChecks(run, _) => OperatorAt(w, id, RecoverFailed(head, run))
       case _ => w)
    case RecoverPassed(head, run) =>
      if RecoveryExpected(row, head) then OperatorAt(w.(row := Recovered(row, run)), id, Finished)
      else OperatorAt(w, id, Finished)
    case RecoverFailed(head, run) =>
      if row.head != Some(head) || row.phase !in {CiWaiting, BlockedRun} || !CleanOn(w, head) || row.fixRounds >= cfg.maxFixRounds then
        OperatorAt(w, id, Finished)
      else OperatorAt(w, id, RecoverFixing(row.phase, head, row.fixRounds, run))
    case RecoverFixing(phase, head, rounds, run) =>
      if FixExpected(row, phase, head, rounds) then OperatorAt(w.(row := WithFix(row, rounds + 1, run)), id, Finished)
      else OperatorAt(w, id, Finished)
    case StopReading => OperatorAt(w, id, if FinalPhase(row.phase) then Finished else StopWriting)
    case StopWriting => OperatorAt(w.(row := row.(phase := StoppedRun)), id, Finished)
    case Finished => w
  }

  predicate FirstStep(o: Operator) { o.ResumeReading? || o.RecoverReading? || o.StopReading? }

  /** One step of the world; a step that cannot be taken changes nothing. A pause or stop is observed
      only where the code looks for one. */
  function Do(cfg: Config, w: World, step: Step): World {
    match step
    case StartController => if w.pc.Idle? then At(w, LoopTop) else w
    case Advance(env) => Controller(cfg, w, env)
    case Raise => if w.pc.Idle? then w else Fail(w)
    case Interrupted =>
      if w.pc.AgentWorking? || w.pc.Reviewing? then Checkpoint(w, LoopTop) else w
    case Crash => At(w, Idle)
    case SetDesired(desired) => w.(row := w.row.(desired := desired))
    case Edit(modified, staged) =>
      if w.tree.None? then w else w.(tree := Some(w.tree.value.(modified := modified, staged := staged)))
    case MoveHead(head) => if w.tree.None? then w else w.(tree := Some(w.tree.value.(head := head)))
    case Command(id, operator) =>
      if id in w.operators || !FirstStep(operator) then w else OperatorAt(w, id, operator)
    case Operate(id, env, merged) => if id !in w.operators then w else OperatorStep(cfg, w, id, env, merged)
  }

  /** A schedule from any world. */
  function RunFrom(cfg: Config, start: World, schedule: seq<Step>): World {
    if schedule == [] then start
    else Do(cfg, RunFrom(cfg, start, schedule[..|schedule| - 1]), schedule[|schedule| - 1])
  }

  /** A schedule of a run that the loop itself creates. */
  function Run(cfg: Config, schedule: seq<Step>): World {
    if schedule == [] then NEW_RUN else Do(cfg, Run(cfg, schedule[..|schedule| - 1]), schedule[|schedule| - 1])
  }

  lemma {:induction false} RunIsFromNew(cfg: Config, schedule: seq<Step>)
    ensures Run(cfg, schedule) == RunFrom(cfg, NEW_RUN, schedule)
  {
    if schedule != [] {
      RunIsFromNew(cfg, schedule[..|schedule| - 1]);
    }
  }
}
