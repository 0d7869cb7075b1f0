/** The rest of what the run loop and the commands get done: recovery of an interrupted worker, the
    pull request, CI, delivery, the operator commands, and one whole run. */
module RunnerHandovers {
  import opened Common
  import opened RunnerModels
  import opened RunnerGit
  import opened RunnerCi
  import opened RunnerMachine
  import opened RunnerRounds

  // ---------------------------------------------------------------------------------------------
  // An interrupted worker

  /** The worker's turn is given back: the run waits for a worker again, on the same parent. */
  function ReturnedTo(w: World, parent: Sha): World {
    w.(row := w.row.(phase := if w.row.fixRounds == 0 then ClaimedIssue else FixRequested, workerParent := Some(parent)), pc := LoopTop)
  }

  lemma TurnIsReturned(cfg: Config, w: World, env: Env, parent: Sha)
    requires w.pc == Returning(w.row.fixRounds, parent)
    ensures Leads(cfg, w, env, ReturnedTo(w, parent))
  {
    hide Controller, Leads, ReviewPc, CiPc, EndPc, WorkerMayStart, Attempt, ValidateRecovered;
    var w1 := w.(row := w.row.(phase := if w.row.fixRounds == 0 then ClaimedIssue else FixRequested), pc := RestoringParent(parent));
    assert WorkerSteps(cfg, w, env) == w1 && WorkerSteps(cfg, w1, env) == ReturnedTo(w, parent);
    AtWorker(cfg, w, env);
    AtWorker(cfg, w1, env);
    hide WorkerSteps, ReturnedTo;
    Stays(cfg, ReturnedTo(w, parent), env);
    Then(cfg, w1, env, ReturnedTo(w, parent));
    Then(cfg, w, env, ReturnedTo(w, parent));
  }

  lemma DispatchesRecovery(cfg: Config, w: World)
    requires AtTop(w, WorkerRunning)
    ensures Dispatch(cfg, w) == w.(pc := RecoverCheck)
  {
  }

  /** Where the loop goes first. */
  lemma RecoveryLooks(cfg: Config, w: World, env: Env, w': World)
    requires AtTop(w, WorkerRunning) && Leads(cfg, WorkerSteps(cfg, w.(pc := RecoverCheck), env), env, w')
    ensures Leads(cfg, w, env, w')
  {
    hide Controller, Leads, ReviewPc, CiPc, EndPc, WorkerSteps, Dispatch;
    AtLoop(cfg, w, env);
    DispatchesRecovery(cfg, w);
    AtWorker(cfg, w.(pc := RecoverCheck), env);
    Then(cfg, w.(pc := RecoverCheck), env, w');
    Then(cfg, w, env, w');
  }

  /** A worker that died after its commit: with the durable result, the commit on the recorded parent is
      accepted as it is, exactly when it is one runner commit in a clean worktree; otherwise the run is
      BLOCKED. No commit is made. */
  lemma RecoveryOfCommit(cfg: Config, w: World, env: Env, parent: Sha)
    requires AtTop(w, WorkerRunning) && w.row.workerParent == Some(parent)
    requires w.tree.Some? && w.tree.value.head != parent
    ensures Leads(cfg, w, env,
      if env.worker.Some? && ValidateRecovered(cfg.git, cfg.task, parent, env.worker.value, w.tree.value, env.git).Ok? then
        CompletedAs(w, w.tree.value.head)
      else BlockedAs(w, env.error))
  {
    hide Controller, Leads, ReviewPc, CiPc, EndPc, WorkerMayStart, Attempt, ValidateRecovered;
    if env.worker.Some? {
      RecoveryAcceptsExactly(cfg.git, cfg.task, parent, env.worker.value, w.tree.value, env.git);
    }
    if env.worker.Some? && ValidateRecovered(cfg.git, cfg.task, parent, env.worker.value, w.tree.value, env.git).Ok? {
      HeadIsSaved(cfg, w.(pc := SavingHead(w.tree.value.head)), env, w.tree.value.head);
      RecoveryLooks(cfg, w, env, CompletedAs(w, w.tree.value.head));
    } else {
      FailureBlocks(cfg, w.(pc := BlockReading), env);
      RecoveryLooks(cfg, w, env, BlockedAs(w, env.error));
    }
  }

  /** A worker that died before its commit and left no result, or failed, or was never recorded: its turn
      is given back with its changes in place; a failed one blocks, and so does a run without a recorded
      parent or a worktree. */
  lemma RecoveryWithoutSuccess(cfg: Config, w: World, env: Env)
    requires AtTop(w, WorkerRunning)
    requires w.row.workerParent.None? || w.tree.None?
      || (w.tree.value.head == w.row.workerParent.value && (env.worker.Some? ==> !env.worker.value.success))
    ensures Leads(cfg, w, env,
      if w.row.workerParent.Some? && w.tree.Some? && env.worker.None? then ReturnedTo(w, w.row.workerParent.value)
      else BlockedAs(w, env.error))
  {
    hide Controller, Leads, ReviewPc, CiPc, EndPc, WorkerMayStart, Attempt, ValidateRecovered;
    if w.row.workerParent.Some? && w.tree.Some? && env.worker.None? {
      var parent := w.row.workerParent.value;
      TurnIsReturned(cfg, w.(pc := Returning(w.row.fixRounds, parent)), env, parent);
      RecoveryLooks(cfg, w, env, ReturnedTo(w, parent));
    } else {
      FailureBlocks(cfg, w.(pc := BlockReading), env);
      RecoveryLooks(cfg, w, env, BlockedAs(w, env.error));
    }
  }

  /** A worker that died with a success it had not committed: the commit is made now, on the same terms; if
      it is refused the turn is given back, and if it was made and not accepted the run is BLOCKED. */
  lemma RecoveryOfSuccess(cfg: Config, w: World, env: Env, parent: Sha, result: WorkerResult) returns (tree: Tree, made: seq<Sha>)
    requires AtTop(w, WorkerRunning) && w.row.workerParent == Some(parent)
    requires w.tree.Some? && w.tree.value.head == parent && env.worker == Some(result) && result.success
    ensures Tried(cfg, w, parent, result, env, tree, made)
    ensures var tried := w.(tree := Some(tree), made := made);
      Leads(cfg, w, env,
        if !Commits(cfg, w.tree.value, parent, result, env) then ReturnedTo(tried, parent)
        else if env.git.leftovers == {} then CompletedAs(tried, CommitOf(cfg, w.tree.value, env.git))
        else BlockedAs(tried, env.error))
  {
    hide Controller, Leads, ReviewPc, CiPc, EndPc, WorkerMayStart, Attempt, ValidateRecovered, Commits;
    var w1 := w.(pc := Recommitting(parent, result, w.row.fixRounds));
    AttemptIsTried(cfg, w1, parent, result, env);
    var (w', head) := Attempt(cfg, w1, parent, result, env);
    tree, made := w'.tree.value, w'.made;
    var tried := w.(tree := Some(tree), made := made);
    CommitIsNotItsParent(cfg, w.tree.value, env.git);
    AtWorker(cfg, w1, env);
    if head.Some? {
      HeadIsSaved(cfg, w'.(pc := SavingHead(head.value)), env, head.value);
      Then(cfg, w1, env, CompletedAs(tried, head.value));
      RecoveryLooks(cfg, w, env, CompletedAs(tried, head.value));
    } else if OnTree(w', parent) {
      TurnIsReturned(cfg, w'.(pc := Returning(w.row.fixRounds, parent)), env, parent);
      Then(cfg, w1, env, ReturnedTo(tried, parent));
      RecoveryLooks(cfg, w, env, ReturnedTo(tried, parent));
    } else {
      FailureBlocks(cfg, w'.(pc := BlockReading), env);
      Then(cfg, w1, env, BlockedAs(tried, env.error));
      RecoveryLooks(cfg, w, env, BlockedAs(tried, env.error));
    }
  }

  lemma CommitIsNotItsParent(cfg: Config, t: Tree, env: GitEnv)
    ensures CommitOf(cfg, t, env) != t.head
  {
    OneParentOneCommit(t.head, t.modified + t.staged, cfg.task.subject, env.rest);
  }

  // ---------------------------------------------------------------------------------------------
  // Start, pull request, CI, delivery

  /** A new run gets its worktree on the task's branch and base, or takes the one that is there on that
      branch, and is CLAIMED. */
  lemma IssueIsClaimed(cfg: Config, w: World, env: Env)
    requires AtTop(w, CreatedRun)
    ensures Leads(cfg, w, env,
      if w.tree.Some? && w.tree.value.branch != cfg.task.branch then BlockedAs(w, env.error)
      else w.(row := w.row.(phase := ClaimedIssue),
              tree := Some(if w.tree.Some? then w.tree.value else Tree(cfg.task.branch, cfg.base, {}, {}))))
  {
    hide Controller, Leads;
    AtLoop(cfg, w, env);
    var w1 := Dispatch(cfg, w);
    if w1.pc.BlockReading? {
      FailureBlocks(cfg, w1, env);
      Then(cfg, w, env, BlockedAs(w, env.error));
    } else {
      var w2 := Moved(w1, ClaimedIssue, LoopTop);
      AtLoop(cfg, w1, env);
      Stays(cfg, w2, env);
      Then(cfg, w1, env, w2);
      Then(cfg, w, env, w2);
    }
  }

  /** A run in a phase that the loop has no step for is BLOCKED, and so is one past its worker that has no
      head. */
  lemma StrayPhaseBlocks(cfg: Config, w: World, env: Env)
    requires w.pc.LoopTop? && w.row.desired == KeepRunning
    requires w.row.phase in {MergeAuthorized, PausedRun}
      || (w.row.phase in {WorkerComplete, CiWaiting, OwnerMerged} && w.row.head.None?)
    ensures Leads(cfg, w, env, BlockedAs(w, env.error))
  {
    hide Controller, Leads;
    AtLoop(cfg, w, env);
    FailureBlocks(cfg, w.(pc := BlockReading), env);
    Then(cfg, w, env, BlockedAs(w, env.error));
  }

  lemma DispatchesHead(cfg: Config, w: World, head: Sha)
    requires w.row.head == Some(head)
    ensures AtTop(w, WorkerComplete) ==> Dispatch(cfg, w) == w.(pc := PublishCheck(head))
    ensures AtTop(w, CiWaiting) ==> Dispatch(cfg, w) == w.(pc := CiCheck(head))
    ensures AtTop(w, OwnerMerged) ==> Dispatch(cfg, w) == w.(pc := DeliverCheck(head))
  {
  }

  /** A completed head that is still in the worktree is published and waits for CI, with no review and no CI
      run on record. */
  lemma HeadIsPublished(cfg: Config, w: World, env: Env, head: Sha)
    requires AtTop(w, WorkerComplete) && w.row.head == Some(head)
    ensures Leads(cfg, w, env,
      if OnTree(w, head) then
        w.(row := w.row.(phase := CiWaiting, pr := Some(env.pr), reviewedHead := None, ciRun := None))
      else BlockedAs(w, env.error))
  {
    hide Controller, Leads, WorkerPc, ReviewPc, EndPc, Dispatch, Judge, CleanOn;
    AtLoop(cfg, w, env);
    DispatchesHead(cfg, w, head);
    var w1 := w.(pc := PublishCheck(head));
    AtWorker(cfg, w1, env);
    if OnTree(w, head) {
      var w2 := w.(pc := Publishing);
      var w3 := w.(row := w.row.(pr := Some(env.pr), reviewedHead := None, ciRun := None), pc := ToCi);
      var w4 := w.(row := w3.row.(phase := CiWaiting));
      assert CiSteps(cfg, w1, env) == w2 && CiSteps(cfg, w2, env) == w3 && CiSteps(cfg, w3, env) == w4;
      AtWorker(cfg, w2, env);
      AtWorker(cfg, w3, env);
      hide CiSteps;
      Stays(cfg, w4, env);
      Then(cfg, w3, env, w4);
      Then(cfg, w2, env, w4);
      Then(cfg, w1, env, w4);
      Then(cfg, w, env, w4);
    } else {
      FailureBlocks(cfg, w.(pc := BlockReading), env);
      Then(cfg, w1, env, BlockedAs(w, env.error));
      Then(cfg, w, env, BlockedAs(w, env.error));
    }
  }

  /** The loop on its way to the poll. */
  lemma CiIsAwaited(cfg: Config, w: World, env: Env, head: Sha)
    requires AtTop(w, CiWaiting) && w.row.head == Some(head)
    ensures Leads(cfg, w, env, if OnTree(w, head) then w.(pc := CiWait(head)) else BlockedAs(w, env.error))
  {
    hide Controller, Leads, WorkerPc, ReviewPc, EndPc, Dispatch, Judge, CleanOn;
    AtLoop(cfg, w, env);
    DispatchesHead(cfg, w, head);
    var w1 := w.(pc := CiCheck(head));
    AtWorker(cfg, w1, env);
    if OnTree(w, head) {
      Stays(cfg, w.(pc := CiWait(head)), env);
      Then(cfg, w1, env, w.(pc := CiWait(head)));
      Then(cfg, w, env, w.(pc := CiWait(head)));
    } else {
      FailureBlocks(cfg, w.(pc := BlockReading), env);
      Then(cfg, w1, env, BlockedAs(w, env.error));
      Then(cfg, w, env, BlockedAs(w, env.error));
    }
  }

  /** What a verdict of CI comes to: a pass goes to review with its run on record, a failure is one more
      counted fix round of the same head while rounds are left and the worktree is clean on that head, and
      a pause or stop of the owner is obeyed. */
  function CiEnd(cfg: Config, w: World, head: Sha, verdict: Verdict, error: Text): World {
    match verdict
    case Passed(run) =>
      w.(row := w.row.(phase := ReviewRunning, ciRun := Some(run)), ciPassed := w.ciPassed + {head}, pc := LoopTop)
    case FailedChecks(run, _) =>
      if CleanOn(w, head) && w.row.fixRounds < cfg.maxFixRounds then
        w.(row := w.row.(phase := FixRequested, fixRounds := w.row.fixRounds + 1, ciRun := Some(run),
                         reviewedHead := None, reviewStarted := None, lastError := None),
           pc := LoopTop)
      else BlockedAs(w, error)
    case PausedWait => w.(pc := Idle)
    case StoppedWait => w.(row := w.row.(phase := StoppedRun), pc := Idle)
    case _ => w
  }

  lemma PassIsStored(cfg: Config, w: World, env: Env, head: Sha, run: nat)
    requires w.pc == SavingCi(head, run)
    ensures Leads(cfg, w, env, w.(row := w.row.(phase := ReviewRunning, ciRun := Some(run)), pc := LoopTop))
  {
    hide Controller, Leads, WorkerPc, ReviewPc, EndPc, Judge, CleanOn;
    var w1 := w.(row := w.row.(ciRun := Some(run)), pc := ToReview(head));
    var w2 := w.(row := w1.row.(phase := ReviewRunning), pc := LoopTop);
    assert CiSteps(cfg, w, env) == w1 && CiSteps(cfg, w1, env) == w2;
    AtWorker(cfg, w, env);
    AtWorker(cfg, w1, env);
    hide CiSteps;
    Stays(cfg, w2, env);
    Then(cfg, w1, env, w2);
    Then(cfg, w, env, w2);
  }

  lemma FailureIsHandedOff(cfg: Config, w: World, env: Env, head: Sha, run: nat)
    requires w.pc == FixCheck(head, run) && w.row.head == Some(head)
    requires w.row.phase == CiWaiting && w.row.desired == KeepRunning
    ensures Leads(cfg, w, env, CiEnd(cfg, w, head, FailedChecks(run, []), env.error))
  {
    hide Controller, Leads, WorkerPc, ReviewPc, EndPc, Judge, CleanOn;
    AtWorker(cfg, w, env);
    if CleanOn(w, head) && w.row.fixRounds < cfg.maxFixRounds {
      var w1 := w.(pc := RequestingFix(CiWaiting, head, w.row.fixRounds, run));
      var w2 := CiEnd(cfg, w, head, FailedChecks(run, []), env.error);
      assert CiSteps(cfg, w, env) == w1 && CiSteps(cfg, w1, env) == w2;
      AtWorker(cfg, w1, env);
      hide CiSteps, CiEnd;
      Stays(cfg, w2, env);
      Then(cfg, w1, env, w2);
      Then(cfg, w, env, w2);
    } else {
      FailureBlocks(cfg, w.(pc := BlockReading), env);
      Then(cfg, w, env, BlockedAs(w, env.error));
    }
  }

  lemma WaitPasses(cfg: Config, w: World, env: Env, head: Sha, run: nat)
    requires w.pc == CiWait(head) && Judge(cfg.required, head, env.poll) == Passed(run)
    ensures Leads(cfg, w, env, CiEnd(cfg, w, head, Passed(run), env.error))
  {
    hide Controller, Leads, WorkerPc, ReviewPc, EndPc, Judge, CleanOn, OnTree;
    AtWorker(cfg, w, env);
    PassIsStored(cfg, w.(ciPassed := w.ciPassed + {head}, pc := SavingCi(head, run)), env, head, run);
    Then(cfg, w, env, CiEnd(cfg, w, head, Passed(run), env.error));
  }

  lemma WaitFails(cfg: Config, w: World, env: Env, head: Sha, run: nat, failed: seq<Text>)
    requires w.pc == CiWait(head) && Judge(cfg.required, head, env.poll) == FailedChecks(run, failed)
    requires w.row.head == Some(head) && w.row.phase == CiWaiting && w.row.desired == KeepRunning
    ensures Leads(cfg, w, env, CiEnd(cfg, w, head, FailedChecks(run, failed), env.error))
  {
    hide Controller, Leads, WorkerPc, ReviewPc, EndPc, Judge, CleanOn, OnTree;
    AtWorker(cfg, w, env);
    var w1 := w.(pc := FixCheck(head, run));
    CleanAnywhere(w, head, w1.pc);
    FailureIsHandedOff(cfg, w1, env, head, run);
    Then(cfg, w, env, CiEnd(cfg, w, head, FailedChecks(run, failed), env.error));
  }

  lemma WaitIsEnded(cfg: Config, w: World, env: Env, head: Sha)
    requires w.pc == CiWait(head) && Judge(cfg.required, head, env.poll) in {PausedWait, StoppedWait}
    requires w.row.phase == CiWaiting
    ensures Leads(cfg, w, env, CiEnd(cfg, w, head, Judge(cfg.required, head, env.poll), env.error))
  {
    hide Controller, Leads, WorkerPc, ReviewPc, EndPc, Judge, CleanOn, OnTree;
    AtWorker(cfg, w, env);
    if Judge(cfg.required, head, env.poll).PausedWait? {
      Stays(cfg, w.(pc := Idle), env);
      Then(cfg, w, env, w.(pc := Idle));
    } else {
      StopIsWritten(cfg, w.(pc := Stopping), env);
      Then(cfg, w, env, w.(row := w.row.(phase := StoppedRun), pc := Idle));
    }
  }

  /** A CI wait at the top of the loop ends as its verdict says; a head that is not in the worktree blocks. */
  lemma CiRuns(cfg: Config, w: World, env: Env, head: Sha)
    requires AtTop(w, CiWaiting) && w.row.head == Some(head)
    requires var verdict := Judge(cfg.required, head, env.poll); verdict != Again && !verdict.TimedOut?
    ensures Leads(cfg, w, env,
      if OnTree(w, head) then CiEnd(cfg, w, head, Judge(cfg.required, head, env.poll), env.error) else BlockedAs(w, env.error))
  {
    hide Controller, Leads, Judge, OnTree, CiEnd;
    CiIsAwaited(cfg, w, env, head);
    if OnTree(w, head) {
      var verdict := Judge(cfg.required, head, env.poll);
      var w1 := w.(pc := CiWait(head));
      match verdict {
        case Passed(run) => WaitPasses(cfg, w1, env, head, run);
        case FailedChecks(run, failed) => WaitFails(cfg, w1, env, head, run, failed);
        case _ => WaitIsEnded(cfg, w1, env, head);
      }
      WaitIsElsewhere(cfg, w, head, verdict, env.error);
      Chains(cfg, w, env, w1, CiEnd(cfg, w, head, verdict, env.error));
    }
  }

  lemma WaitIsElsewhere(cfg: Config, w: World, head: Sha, verdict: Verdict, error: Text)
    requires verdict != Again && !verdict.TimedOut?
    ensures CiEnd(cfg, w.(pc := CiWait(head)), head, verdict, error) == CiEnd(cfg, w, head, verdict, error)
  {
  }

  lemma CleanAnywhere(w: World, head: Sha, pc: Pc)
    ensures CleanOn(w.(pc := pc), head) == CleanOn(w, head)
  {
  }

  lemma StopIsWritten(cfg: Config, w: World, env: Env)
    requires w.pc.Stopping? && !FinalPhase(w.row.phase)
    ensures Leads(cfg, w, env, w.(row := w.row.(phase := StoppedRun), pc := Idle))
  {
    hide Controller, Leads, WorkerPc, ReviewPc, CiPc;
    var w1 := w.(pc := StopMoving);
    var w2 := w.(row := w.row.(phase := StoppedRun), pc := Idle);
    AtReview(cfg, w, env);
    AtReview(cfg, w1, env);
    Stays(cfg, w2, env);
    Then(cfg, w1, env, w2);
    Then(cfg, w, env, w2);
  }

  /** A merge of the reviewed head completes the run; a merge of any other head blocks it. */
  lemma MergeIsDelivered(cfg: Config, w: World, env: Env, head: Sha)
    requires AtTop(w, OwnerMerged) && w.row.head == Some(head)
    ensures Leads(cfg, w, env,
      if w.row.reviewedHead == Some(head) then w.(row := w.row.(phase := CompletedRun)) else BlockedAs(w, env.error))
  {
    hide Controller, Leads, WorkerPc, ReviewPc, CiPc, Dispatch;
    AtLoop(cfg, w, env);
    DispatchesHead(cfg, w, head);
    var w1 := w.(pc := DeliverCheck(head));
    AtReview(cfg, w1, env);
    if w.row.reviewedHead == Some(head) {
      var w2, w3 := w.(pc := ToCompleted(head)), w.(row := w.row.(phase := CompletedRun));
      assert EndSteps(w1, env) == w2 && EndSteps(w2, env) == w3;
      AtReview(cfg, w2, env);
      hide EndSteps;
      Stays(cfg, w3, env);
      Then(cfg, w2, env, w3);
      Then(cfg, w1, env, w3);
      Then(cfg, w, env, w3);
    } else {
      FailureBlocks(cfg, w.(pc := BlockReading), env);
      Then(cfg, w1, env, BlockedAs(w, env.error));
      Then(cfg, w, env, BlockedAs(w, env.error));
    }
  }

  // ---------------------------------------------------------------------------------------------
  // Interruptions

  /** A crash loses only where the controller stood, and a new controller starts at the top of the loop from
      what is stored. */
  lemma CrashLosesOnlyThePlace(cfg: Config, w: World)
    ensures Do(cfg, Do(cfg, w, Crash), StartController) == w.(pc := LoopTop)
  {
  }

  /** An exception blocks a run under a controller with its error, unless the run is at its end. */
  lemma ExceptionBlocks(cfg: Config, w: World, env: Env)
    requires !w.pc.Idle?
    ensures Leads(cfg, Do(cfg, w, Raise), env, if TerminalPhase(w.row.phase) then w.(pc := Idle) else BlockedAs(w, env.error))
  {
    hide Controller, Leads, WorkerPc, ReviewPc, CiPc;
    var w1 := w.(pc := BlockReading);
    if TerminalPhase(w.row.phase) {
      AtReview(cfg, w1, env);
      Stays(cfg, w.(pc := Idle), env);
      Then(cfg, w1, env, w.(pc := Idle));
    } else {
      FailureBlocks(cfg, w1, env);
    }
  }

  /** An agent is interrupted by the owner's pause, which leaves the run as it is, or stop. */
  lemma InterruptionIsObeyed(cfg: Config, w: World, env: Env)
    requires (w.pc.AgentWorking? || w.pc.Reviewing?) && w.row.desired != KeepRunning && !FinalPhase(w.row.phase)
    ensures Leads(cfg, Do(cfg, w, Interrupted), env,
      if w.row.desired == Pause then w.(pc := Idle) else w.(row := w.row.(phase := StoppedRun), pc := Idle))
  {
    hide Controller, Leads;
    if w.row.desired == Pause {
      Stays(cfg, w.(pc := Idle), env);
    } else {
      StopIsWritten(cfg, w.(pc := Stopping), env);
    }
  }

  // ---------------------------------------------------------------------------------------------
  // Commands

  /** The next `n` steps of one command. */
  function Operated(cfg: Config, w: World, id: nat, env: Env, merged: Option<Sha>, n: nat): World
    decreases n
  {
    if n == 0 then w else Operated(cfg, Do(cfg, w, Operate(id, env, merged)), id, env, merged, n - 1)
  }

  function Ended(w: World, id: nat): World { w.(operators := w.operators[id := Finished]) }

  /** A resume after the owner's merge: a run READY_FOR_OWNER with a pull request on a reviewed head becomes
      OWNER_MERGED with the merge on record and the owner's leave to run; any other run is left alone. */
  lemma ResumeRuns(cfg: Config, w: World, id: nat, env: Env, merged: Option<Sha>)
    requires id !in w.operators
    ensures Operated(cfg, Do(cfg, w, Command(id, ResumeReading)), id, env, merged, 3) == Ended(
      if w.row.phase == ReadyForOwner && w.row.pr.Some? && w.row.head.Some? && w.row.reviewedHead == w.row.head && merged.Some? then
        w.(row := w.row.(phase := OwnerMerged, desired := KeepRunning, mergeSha := merged), confirmed := w.row.head)
      else w, id)
  {
    hide Controller, Judge, CleanOn;
    var w1 := Do(cfg, w, Command(id, ResumeReading));
    var w2 := OperatorStep(cfg, w1, id, env, merged);
    var w3 := OperatorStep(cfg, w2, id, env, merged);
    var w4 := OperatorStep(cfg, w3, id, env, merged);
    OperatesThrice(cfg, w1, id, env, merged);
  }

  lemma OperatesThrice(cfg: Config, w: World, id: nat, env: Env, merged: Option<Sha>)
    requires id in w.operators
    ensures id in OperatorStep(cfg, w, id, env, merged).operators
    ensures id in OperatorStep(cfg, OperatorStep(cfg, w, id, env, merged), id, env, merged).operators
    ensures Operated(cfg, w, id, env, merged, 3)
            == OperatorStep(cfg, OperatorStep(cfg, OperatorStep(cfg, w, id, env, merged), id, env, merged), id, env, merged)
  {
    StaysCommanded(cfg, w, id, env, merged);
    var w1 := OperatorStep(cfg, w, id, env, merged);
    StaysCommanded(cfg, w1, id, env, merged);
    var w2 := OperatorStep(cfg, w1, id, env, merged);
    hide OperatorStep;
    assert Operated(cfg, Do(cfg, w2, Operate(id, env, merged)), id, env, merged, 0) == Do(cfg, w2, Operate(id, env, merged));
    assert Operated(cfg, w2, id, env, merged, 1) == Do(cfg, w2, Operate(id, env, merged));
    assert Operated(cfg, w1, id, env, merged, 2) == Do(cfg, w2, Operate(id, env, merged));
  }

  lemma StaysCommanded(cfg: Config, w: World, id: nat, env: Env, merged: Option<Sha>)
    requires id in w.operators
    ensures id in OperatorStep(cfg, w, id, env, merged).operators
  {
    hide Judge, CleanOn;
  }

  /** A stop makes a run STOPPED unless it is COMPLETED, BLOCKED or STOPPED already. */
  lemma StopRuns(cfg: Config, w: World, id: nat, env: Env, merged: Option<Sha>)
    requires id !in w.operators
    ensures Operated(cfg, Do(cfg, w, Command(id, StopReading)), id, env, merged, 3) == Ended(
      if w.row.phase in {CompletedRun, BlockedRun, StoppedRun} then w else w.(row := w.row.(phase := StoppedRun)), id)
  {
    hide Controller, Judge, CleanOn;
    var w1 := Do(cfg, w, Command(id, StopReading));
    OperatesThrice(cfg, w1, id, env, merged);
  }

  /** What a recovery of a run that was BLOCKED by CI comes to once CI answers again for its head: a pass
      moves it to review, a failure is one more counted fix round while rounds are left, both only with the
      owner's leave to run. */
  function RecoveredTo(cfg: Config, w: World, head: Sha, verdict: Verdict): World {
    var cleared := w.row.(reviewedHead := None, reviewStarted := None, lastError := None);
    match verdict
    case Passed(run) =>
      w.(row := if w.row.desired == KeepRunning then cleared.(phase := ReviewRunning, ciRun := Some(run)) else w.row,
         ciPassed := w.ciPassed + {head})
    case FailedChecks(run, _) =>
      if w.row.desired == KeepRunning && w.row.fixRounds < cfg.maxFixRounds then
        w.(row := cleared.(phase := FixRequested, ciRun := Some(run), fixRounds := w.row.fixRounds + 1))
      else w
    case _ => w
  }

  lemma RecoveryReads(cfg: Config, w: World, id: nat, env: Env, merged: Option<Sha>)
    requires id in w.operators && w.operators[id] == RecoverReading
    ensures OperatorStep(cfg, w, id, env, merged) ==
      if w.row.phase == BlockedRun && w.row.lastError.Some? && w.row.lastError.value in cfg.ciErrors
         && w.row.head.Some? && w.row.pr.Some? && CleanOn(w, w.row.head.value) then
        OperatorAt(w, id, RecoverWaiting(w.row.head.value))
      else Ended(w, id)
  {
    hide Judge, CleanOn;
  }

  lemma RecoveryPasses(cfg: Config, w: World, id: nat, env: Env, merged: Option<Sha>, head: Sha, run: nat)
    requires id in w.operators && w.operators[id] == RecoverWaiting(head)
    requires w.row.phase == BlockedRun && w.row.head == Some(head) && Judge(cfg.required, head, env.poll) == Passed(run)
    ensures var w1 := OperatorStep(cfg, w, id, env, merged);
      id in w1.operators && OperatorStep(cfg, w1, id, env, merged) == Ended(RecoveredTo(cfg, w, head, Passed(run)), id)
  {
    hide Judge, CleanOn;
  }

  lemma RecoveryFails(cfg: Config, w: World, id: nat, env: Env, merged: Option<Sha>, head: Sha, run: nat, failed: seq<Text>)
    requires id in w.operators && w.operators[id] == RecoverWaiting(head)
    requires w.row.phase == BlockedRun && w.row.head == Some(head) && CleanOn(w, head)
    requires Judge(cfg.required, head, env.poll) == FailedChecks(run, failed)
    ensures var w1 := OperatorStep(cfg, w, id, env, merged);
      w1 == w.(operators := w1.operators) && id in w1.operators && w1.operators == w.operators[id := RecoverFailed(head, run)]
  {
    hide Judge, CleanOn;
  }

  lemma FailureIsRecovered(cfg: Config, w: World, id: nat, env: Env, merged: Option<Sha>, head: Sha, run: nat)
    requires id in w.operators && w.operators[id] == RecoverFailed(head, run)
    requires w.row.phase == BlockedRun && w.row.head == Some(head) && CleanOn(w, head)
    ensures var w1 := OperatorStep(cfg, w, id, env, merged);
      id in w1.operators && OperatorStep(cfg, w1, id, env, merged) == Ended(RecoveredTo(cfg, w, head, FailedChecks(run, [])), id)
  {
    hide Judge, CleanOn;
  }

  lemma FinishedStays(cfg: Config, w: World, id: nat, env: Env, merged: Option<Sha>)
    requires id in w.operators && w.operators[id] == Finished
    ensures OperatorStep(cfg, w, id, env, merged) == w
    ensures Operated(cfg, w, id, env, merged, 1) == w
  {
    hide Judge, CleanOn;
    assert Operated(cfg, Do(cfg, w, Operate(id, env, merged)), id, env, merged, 0) == Do(cfg, w, Operate(id, env, merged));
  }

  /** Four steps of a command are three and one more. */
  lemma OperatesFourTimes(cfg: Config, w: World, id: nat, env: Env, merged: Option<Sha>)
    requires id in w.operators
    ensures var w1 := OperatorStep(cfg, w, id, env, merged);
      id in w1.operators && Operated(cfg, w, id, env, merged, 4) == Operated(cfg, w1, id, env, merged, 3)
  {
    StaysCommanded(cfg, w, id, env, merged);
    hide OperatorStep;
  }

  /** The run is BLOCKED on CI, with a pull request and a clean worktree on its head. */
  predicate BlockedOnCi(cfg: Config, w: World) {
    && w.row.phase == BlockedRun && w.row.lastError.Some? && w.row.lastError.value in cfg.ciErrors
    && w.row.head.Some? && w.row.pr.Some? && CleanOn(w, w.row.head.value)
  }

  lemma CommandStarts(cfg: Config, w: World, id: nat, o: Operator)
    requires id !in w.operators && FirstStep(o)
    ensures Do(cfg, w, Command(id, o)) == w.(operators := w.operators[id := o])
  {
  }

  lemma CommandMoves(w: World, id: nat, o: Operator, o': Operator)
    ensures OperatorAt(w.(operators := w.operators[id := o]), id, o') == w.(operators := w.operators[id := o'])
    ensures Ended(w.(operators := w.operators[id := o]), id) == w.(operators := w.operators[id := Finished])
  {
  }

  lemma CleanUnder(w: World, w': World)
    requires w'.tree == w.tree
    ensures forall head :: CleanOn(w', head) == CleanOn(w, head)
  {
  }

  lemma RecoveryStarts(cfg: Config, w: World, id: nat, env: Env, merged: Option<Sha>)
    requires id !in w.operators
    ensures Operated(cfg, Do(cfg, w, Command(id, RecoverReading)), id, env, merged, 4) ==
      Operated(cfg, if BlockedOnCi(cfg, w) then w.(operators := w.operators[id := RecoverWaiting(w.row.head.value)]) else Ended(w, id),
               id, env, merged, 3)
  {
    hide OperatorStep, Operated, Do, CleanOn, OperatorAt;
    var w1 := w.(operators := w.operators[id := RecoverReading]);
    CommandStarts(cfg, w, id, RecoverReading);
    CleanUnder(w, w1);
    RecoveryReads(cfg, w1, id, env, merged);
    OperatesFourTimes(cfg, w1, id, env, merged);
    CommandMoves(w, id, RecoverReading, Finished);
    if w.row.head.Some? {
      CommandMoves(w, id, RecoverReading, RecoverWaiting(w.row.head.value));
    }
  }

  /** A CI recovery acts exactly on a run that is BLOCKED on CI, and then as the verdict says. */
  lemma RecoveryRuns(cfg: Config, w: World, id: nat, env: Env, merged: Option<Sha>)
    requires id !in w.operators
    ensures var w' := Operated(cfg, Do(cfg, w, Command(id, RecoverReading)), id, env, merged, 4);
      if BlockedOnCi(cfg, w) then
        var verdict := Judge(cfg.required, w.row.head.value, env.poll);
        verdict.Passed? || verdict.FailedChecks? ==> w' == Ended(RecoveredTo(cfg, w, w.row.head.value, verdict), id)
      else w' == Ended(w, id)
  {
    hide OperatorStep, Do, Operated, RecoveredTo, CleanOn, Judge;
    RecoveryStarts(cfg, w, id, env, merged);
    if BlockedOnCi(cfg, w) {
      var head := w.row.head.value;
      var verdict := Judge(cfg.required, head, env.poll);
      if verdict.Passed? {
        PassIsRecovered(cfg, w, id, env, merged, head, verdict.run);
      } else if verdict.FailedChecks? {
        FailIsRecovered(cfg, w, id, env, merged, head, verdict.run, verdict.failed);
      }
    } else {
      OperatesThrice(cfg, Ended(w, id), id, env, merged);
      FinishedStays(cfg, Ended(w, id), id, env, merged);
    }
  }

  /** Where the command stood does not show in what it comes to. */
  lemma EndForgets(cfg: Config, w: World, id: nat, o: Operator, head: Sha, verdict: Verdict)
    requires verdict.Passed? || verdict.FailedChecks?
    ensures Ended(RecoveredTo(cfg, w.(operators := w.operators[id := o]), head, verdict), id) == Ended(RecoveredTo(cfg, w, head, verdict), id)
    ensures CleanOn(w.(operators := w.operators[id := o]), head) == CleanOn(w, head)
    ensures verdict.FailedChecks? ==> RecoveredTo(cfg, w, head, verdict) == RecoveredTo(cfg, w, head, FailedChecks(verdict.run, []))
  {
  }

  lemma PassIsRecovered(cfg: Config, w: World, id: nat, env: Env, merged: Option<Sha>, head: Sha, run: nat)
    requires w.row.phase == BlockedRun && w.row.head == Some(head)
    requires Judge(cfg.required, head, env.poll) == Passed(run)
    ensures Operated(cfg, w.(operators := w.operators[id := RecoverWaiting(head)]), id, env, merged, 3)
            == Ended(RecoveredTo(cfg, w, head, Passed(run)), id)
  {
    hide OperatorStep, Judge, CleanOn, Do, Operated, RecoveredTo;
    var w2 := w.(operators := w.operators[id := RecoverWaiting(head)]);
    OperatesThrice(cfg, w2, id, env, merged);
    RecoveryPasses(cfg, w2, id, env, merged, head, run);
    EndForgets(cfg, w, id, RecoverWaiting(head), head, Passed(run));
    FinishedStays(cfg, Ended(RecoveredTo(cfg, w2, head, Passed(run)), id), id, env, merged);
  }

  lemma FailIsRecovered(cfg: Config, w: World, id: nat, env: Env, merged: Option<Sha>, head: Sha, run: nat, failed: seq<Text>)
    requires w.row.phase == BlockedRun && w.row.head == Some(head) && CleanOn(w, head)
    requires Judge(cfg.required, head, env.poll) == FailedChecks(run, failed)
    ensures Operated(cfg, w.(operators := w.operators[id := RecoverWaiting(head)]), id, env, merged, 3)
            == Ended(RecoveredTo(cfg, w, head, FailedChecks(run, failed)), id)
  {
    hide OperatorStep, Judge, CleanOn, Do, Operated, RecoveredTo;
    var w2 := w.(operators := w.operators[id := RecoverWaiting(head)]);
    var w3 := w.(operators := w.operators[id := RecoverFailed(head, run)]);
    EndForgets(cfg, w, id, RecoverWaiting(head), head, FailedChecks(run, failed));
    EndForgets(cfg, w, id, RecoverFailed(head, run), head, FailedChecks(run, failed));
    OperatesThrice(cfg, w2, id, env, merged);
    RecoveryFails(cfg, w2, id, env, merged, head, run, failed);
    assert OperatorStep(cfg, w2, id, env, merged) == w3;
    FailureIsRecovered(cfg, w3, id, env, merged, head, run);
    EndForgets(cfg, w, id, RecoverFailed(head, run), head, FailedChecks(run, []));
  }

  // ---------------------------------------------------------------------------------------------
  // One whole run

  lemma RunExtends(cfg: Config, schedule: seq<Step>, step: Step)
    ensures Run(cfg, schedule + [step]) == Do(cfg, Run(cfg, schedule), step)
  {
    hide Do;
    assert (schedule + [step])[..|schedule|] == schedule;
  }

  lemma {:induction false} StepsAreScheduled(cfg: Config, schedule: seq<Step>, env: Env, n: nat) returns (longer: seq<Step>)
    ensures Run(cfg, longer) == Undisturbed(cfg, Run(cfg, schedule), env, n)
    decreases n
  {
    hide Controller;
    if n == 0 {
      longer := schedule;
    } else {
      RunExtends(cfg, schedule, Advance(env));
      longer := StepsAreScheduled(cfg, schedule + [Advance(env)], env, n - 1);
    }
  }

  /** A schedule that goes on undisturbed. */
  lemma GoesOn(cfg: Config, schedule: seq<Step>, env: Env, w: World) returns (longer: seq<Step>)
    requires Leads(cfg, Run(cfg, schedule), env, w)
    ensures Run(cfg, longer) == w
  {
    hide Controller, Run, Undisturbed;
    var n: nat :| Undisturbed(cfg, Run(cfg, schedule), env, n) == w;
    longer := StepsAreScheduled(cfg, schedule, env, n);
  }

  /** The run after its one worker, at the top of the loop. */
  function Worked(cfg: Config, env: Env, head: Sha): World {
    World(WorkColumns(WorkerComplete, KeepRunning, Some(head), None, None, None, None, 0, 1, None, None, None),
          Some(Tree(cfg.task.branch, head, {}, {})), LoopTop, map[], [head], {}, {}, None)
  }

  /** A new run, its worktree made and its worker launched. */
  lemma NewRunLaunches(cfg: Config, env: Env) returns (schedule: seq<Step>)
    requires 1 <= cfg.maxInvocations
    ensures Run(cfg, schedule) ==
      World(NEW_WORK.(phase := WorkerRunning, invocations := 1, workerParent := Some(cfg.base)),
            Some(Tree(cfg.task.branch, cfg.base, {}, {})), AgentWorking(cfg.base), map[], [], {}, {}, None)
  {
    var w1 := At(NEW_RUN, LoopTop);
    RunExtends(cfg, [], StartController);
    assert Run(cfg, [] + [StartController]) == w1;
    IssueIsClaimed(cfg, w1, env);
    var w2 := w1.(row := w1.row.(phase := ClaimedIssue), tree := Some(Tree(cfg.task.branch, cfg.base, {}, {})));
    assert Launchable(cfg, w2);
    hide Run, Controller, Leads, Launchable;
    schedule := GoesOn(cfg, [] + [StartController], env, w2);
    WorkerIsLaunched(cfg, w2, env);
    schedule := GoesOn(cfg, schedule, env,
      w2.(row := w2.row.(phase := WorkerRunning, invocations := 1, workerParent := Some(cfg.base)), pc := AgentWorking(cfg.base)));
  }

  lemma NewRunIsWorked(cfg: Config, env: Env, modified: set<Text>, staged: set<Text>) returns (schedule: seq<Step>)
    requires 1 <= cfg.maxInvocations && env.worker.Some? && env.worker.value.success && env.git.leftovers == {}
    requires Commits(cfg, Tree(cfg.task.branch, cfg.base, modified, staged), cfg.base, env.worker.value, env)
    ensures Run(cfg, schedule) == Worked(cfg, env, CommitOf(cfg, Tree(cfg.task.branch, cfg.base, modified, staged), env.git))
  {
    schedule := NewRunLaunches(cfg, env);
    var tree := Tree(cfg.task.branch, cfg.base, modified, staged);
    var head := CommitOf(cfg, tree, env.git);
    RunExtends(cfg, schedule, Edit(modified, staged));
    schedule := schedule + [Edit(modified, staged)];
    var w := Run(cfg, schedule);
    assert w.tree == Some(tree) && w.row.phase == WorkerRunning && w.pc == AgentWorking(cfg.base);
    hide Run, Controller, Leads, Commits, CommitOf;
    var tree', made := WorkerEnds(cfg, w, env, cfg.base);
    assert tree' == Tree(cfg.task.branch, head, {}, {}) && made == [] + [head];
    schedule := GoesOn(cfg, schedule, env, CompletedAs(w.(tree := Some(tree'), made := made), head));
  }

  /** A run whose worker's changes can be committed, whose CI passes and whose review approves gets to
      READY_FOR_OWNER in one round, with one commit, two invocations and all its evidence on record, and to
      COMPLETED once the owner has merged it. */
  lemma RunReachesItsOwner(
    cfg: Config, env: Env, modified: set<Text>, staged: set<Text>, run: nat, merge: Sha)
    returns (ready: seq<Step>, completed: seq<Step>)
    requires 2 <= cfg.maxInvocations && env.worker.Some? && env.worker.value.success && env.git.leftovers == {}
    requires Commits(cfg, Tree(cfg.task.branch, cfg.base, modified, staged), cfg.base, env.worker.value, env)
    requires var head := CommitOf(cfg, Tree(cfg.task.branch, cfg.base, modified, staged), env.git);
      Judge(cfg.required, head, env.poll) == Passed(run) && env.review == Some(ReviewResult(Approve, head))
    ensures var head := CommitOf(cfg, Tree(cfg.task.branch, cfg.base, modified, staged), env.git);
      var row := WorkColumns(ReadyForOwner, KeepRunning, Some(head), Some(head), None, None, None, 0, 2, Some(run), Some(env.pr), None);
      var tree := Some(Tree(cfg.task.branch, head, {}, {}));
      && Run(cfg, ready) == World(row, tree, LoopTop, map[], [head], {head}, {head}, None)
      && Run(cfg, completed) == World(row.(phase := CompletedRun, mergeSha := Some(merge)), tree, LoopTop,
                                      map[0 := Finished], [head], {head}, {head}, Some(head))
  {
    var head := CommitOf(cfg, Tree(cfg.task.branch, cfg.base, modified, staged), env.git);
    var row := WorkColumns(ReadyForOwner, KeepRunning, Some(head), Some(head), None, None, None, 0, 2, Some(run), Some(env.pr), None);
    var tree := Some(Tree(cfg.task.branch, head, {}, {}));
    hide Run, Controller, Leads, Commits, CommitOf, Judge;
    var worked := NewRunIsWorked(cfg, env, modified, staged);
    var w1 := Worked(cfg, env, head);
    HeadIsPublished(cfg, w1, env, head);
    var w2 := w1.(row := w1.row.(phase := CiWaiting, pr := Some(env.pr)));
    var published := GoesOn(cfg, worked, env, w2);
    CiRuns(cfg, w2, env, head);
    var w3 := w2.(row := w2.row.(phase := ReviewRunning, ciRun := Some(run)), ciPassed := {head});
    var passed := GoesOn(cfg, published, env, w3);
    ReviewRuns(cfg, w3, env);
    var w4 := World(row, tree, LoopTop, map[], [head], {head}, {head}, None);
    ready := GoesOn(cfg, passed, env, w4);
    completed := MergeCompletes(cfg, ready, env, head, w4, merge);
  }

  lemma MergeCompletes(cfg: Config, ready: seq<Step>, env: Env, head: Sha, w: World, merge: Sha) returns (completed: seq<Step>)
    requires Run(cfg, ready) == w && w.pc.LoopTop? && w.operators == map[]
    requires w.row.phase == ReadyForOwner && w.row.head == Some(head) == w.row.reviewedHead && w.row.pr.Some?
    ensures Run(cfg, completed) == w.(
      row := w.row.(phase := CompletedRun, desired := KeepRunning, mergeSha := Some(merge)),
      operators := map[0 := Finished], confirmed := Some(head))
  {
    hide Controller, Leads, Judge, Run, Do;
    ResumeRuns(cfg, w, 0, env, Some(merge));
    RunExtends(cfg, ready, Command(0, ResumeReading));
    var merged := CommandIsScheduled(cfg, ready + [Command(0, ResumeReading)], 0, env, Some(merge), 3);
    var w1 := w.(row := w.row.(phase := OwnerMerged, desired := KeepRunning, mergeSha := Some(merge)),
                 operators := map[0 := Finished], confirmed := Some(head));
    assert w.operators[0 := Finished] == map[0 := Finished];
    assert Run(cfg, merged) == w1;
    MergeIsDelivered(cfg, w1, env, head);
    completed := GoesOn(cfg, merged, env, w1.(row := w1.row.(phase := CompletedRun)));
  }

  lemma {:induction false} CommandIsScheduled(cfg: Config, schedule: seq<Step>, id: nat, env: Env, merged: Option<Sha>, n: nat)
    returns (longer: seq<Step>)
    ensures Run(cfg, longer) == Operated(cfg, Run(cfg, schedule), id, env, merged, n)
    decreases n
  {
    hide Do;
    if n == 0 {
      longer := schedule;
    } else {
      RunExtends(cfg, schedule, Operate(id, env, merged));
      longer := CommandIsScheduled(cfg, schedule + [Operate(id, env, merged)], id, env, merged, n - 1);
    }
  }
}
