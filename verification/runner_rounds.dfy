/** What the run loop gets done: from the top of the loop, phase by phase and answer by answer, the row,
    worktree and evidence it leaves when nothing comes between its steps. */
module RunnerRounds {
  import opened Common
  import opened RunnerModels
  import opened RunnerGit
  import opened RunnerCi
  import opened RunnerMachine

  /** The controller's next `n` steps, all in one environment. */
  function Undisturbed(cfg: Config, w: World, env: Env, n: nat): World
    decreases n
  {
    if n == 0 then w else Undisturbed(cfg, Controller(cfg, w, env), env, n - 1)
  }

  /** Left alone, the controller gets from one world to the other. */
  ghost predicate Leads(cfg: Config, w: World, env: Env, w': World) {
    exists n: nat :: Undisturbed(cfg, w, env, n) == w'
  }

  lemma {:induction false} Continues(cfg: Config, w: World, env: Env, m: nat, n: nat)
    ensures Undisturbed(cfg, Undisturbed(cfg, w, env, m), env, n) == Undisturbed(cfg, w, env, m + n)
    decreases m
  {
    hide Controller;
    if m > 0 {
      Continues(cfg, Controller(cfg, w, env), env, m - 1, n);
    }
  }

  lemma Stays(cfg: Config, w: World, env: Env)
    ensures Leads(cfg, w, env, w)
  {
    hide Controller;
    assert Undisturbed(cfg, w, env, 0) == w;
  }

  lemma Chains(cfg: Config, w: World, env: Env, w1: World, w2: World)
    requires Leads(cfg, w, env, w1) && Leads(cfg, w1, env, w2)
    ensures Leads(cfg, w, env, w2)
  {
    hide Controller, Undisturbed;
    var m: nat :| Undisturbed(cfg, w, env, m) == w1;
    var n: nat :| Undisturbed(cfg, w1, env, n) == w2;
    Continues(cfg, w, env, m, n);
  }

  /** One step first. */
  lemma Then(cfg: Config, w: World, env: Env, w': World)
    requires Leads(cfg, Controller(cfg, w, env), env, w')
    ensures Leads(cfg, w, env, w')
  {
    hide Controller;
    var n: nat :| Undisturbed(cfg, Controller(cfg, w, env), env, n) == w';
    assert Undisturbed(cfg, w, env, n + 1) == w';
  }

  lemma AtLoop(cfg: Config, w: World, env: Env)
    ensures w.pc.LoopTop? ==> Controller(cfg, w, env) == Dispatch(cfg, w)
    ensures w.pc.ToClaimed? ==> Controller(cfg, w, env) == Moved(w, ClaimedIssue, LoopTop)
  {
    hide Dispatch, WorkerSteps, CiSteps, EndSteps, ReviewSteps;
  }

  lemma AtWorker(cfg: Config, w: World, env: Env)
    ensures WorkerPc(w.pc) ==> Controller(cfg, w, env) == WorkerSteps(cfg, w, env)
    ensures CiPc(w.pc) ==> Controller(cfg, w, env) == CiSteps(cfg, w, env)
  {
    hide Dispatch, WorkerSteps, CiSteps, EndSteps, ReviewSteps;
  }

  lemma AtReview(cfg: Config, w: World, env: Env)
    ensures ReviewPc(w.pc) ==> Controller(cfg, w, env) == ReviewSteps(cfg, w, env)
    ensures EndPc(w.pc) ==> Controller(cfg, w, env) == EndSteps(w, env)
  {
    hide Dispatch, WorkerSteps, CiSteps, EndSteps, ReviewSteps;
  }

  /** At the top of the loop, in this phase, with the owner's leave to run. */
  predicate AtTop(w: World, phase: RunPhase) {
    w.pc.LoopTop? && w.row.phase == phase && w.row.desired == KeepRunning
  }

  /** The run is BLOCKED with its error, and the controller has ended. */
  function BlockedAs(w: World, error: Text): World {
    w.(row := w.row.(phase := BlockedRun, lastError := Some(error)), pc := Idle)
  }

  lemma FailureBlocks(cfg: Config, w: World, env: Env)
    requires w.pc.BlockReading? && !TerminalPhase(w.row.phase)
    ensures Leads(cfg, w, env, BlockedAs(w, env.error))
  {
    hide Controller, Leads, WorkerPc, CiPc, ReviewPc;
    var w1 := EndSteps(w, env);
    var w2 := EndSteps(w1, env);
    var w3 := EndSteps(w2, env);
    assert w3 == BlockedAs(w, env.error);
    AtReview(cfg, w, env);
    AtReview(cfg, w1, env);
    AtReview(cfg, w2, env);
    Stays(cfg, w3, env);
    Then(cfg, w2, env, w3);
    Then(cfg, w1, env, w3);
    Then(cfg, w, env, w3);
  }

  // ---------------------------------------------------------------------------------------------
  // The owner

  /** A paused run stays as it is, a stopped one becomes STOPPED, and a run that is already at its end is
      left alone. */
  lemma OwnerIsObeyed(cfg: Config, w: World, env: Env)
    requires w.pc.LoopTop? && (w.row.desired != KeepRunning || TerminalPhase(w.row.phase))
    ensures Leads(cfg, w, env,
      if w.row.desired == Stop && !TerminalPhase(w.row.phase) then w.(row := w.row.(phase := StoppedRun), pc := Idle)
      else w.(pc := Idle))
  {
    hide Controller, Leads, WorkerPc, CiPc, ReviewPc;
    AtLoop(cfg, w, env);
    if w.row.desired == Stop && !TerminalPhase(w.row.phase) {
      var w1 := w.(pc := Stopping);
      var w2 := EndSteps(w1, env);
      var w3 := EndSteps(w2, env);
      AtReview(cfg, w1, env);
      AtReview(cfg, w2, env);
      Stays(cfg, w3, env);
      Then(cfg, w2, env, w3);
      Then(cfg, w1, env, w3);
      Then(cfg, w, env, w3);
    } else {
      Stays(cfg, w.(pc := Idle), env);
      Then(cfg, w, env, w.(pc := Idle));
    }
  }

  // ---------------------------------------------------------------------------------------------
  // Review

  /** The reviewer was launched for this head and has answered. */
  function Answered(w: World, head: Sha, review: ReviewResult): World {
    w.(row := w.row.(invocations := w.row.invocations + 1, reviewStarted := Some(head)),
       pc := Finishing(head, w.row.fixRounds, review))
  }

  /** A review that was started for this head but left no result is forgotten first. */
  function Restarted(w: World): World {
    if w.row.reviewStarted == w.row.head then w.(row := w.row.(reviewStarted := None)) else w
  }

  lemma ReviewIsBudgeted(cfg: Config, w: World, env: Env, head: Sha)
    requires AtTop(w, ReviewRunning) && w.row.head == Some(head) && CleanOn(w, head)
    requires w.row.reviewStarted == Some(head) ==> env.review.None?
    ensures Leads(cfg, w, env, Restarted(w).(pc := ReviewBudget(head, w.row.fixRounds)))
  {
    hide Controller, Leads, WorkerPc, CiPc, EndPc, Dispatch;
    var w1 := w.(pc := ReviewCheck);
    var w2 := ReviewSteps(cfg, w1, env);
    var w3 := if w.row.reviewStarted == Some(head) then ReviewSteps(cfg, w2, env) else w2;
    assert w3 == Restarted(w).(pc := ReviewBudget(head, w.row.fixRounds));
    AtLoop(cfg, w, env);
    DispatchesReview(cfg, w);
    AtReview(cfg, w1, env);
    AtReview(cfg, w2, env);
    hide ReviewSteps, Restarted;
    Stays(cfg, w3, env);
    if w.row.reviewStarted == Some(head) {
      Then(cfg, w2, env, w3);
    }
    Then(cfg, w1, env, w3);
    Then(cfg, w, env, w3);
  }

  lemma DispatchesReview(cfg: Config, w: World)
    requires AtTop(w, ReviewRunning)
    ensures Dispatch(cfg, w) == w.(pc := ReviewCheck)
  {
  }

  lemma ReviewIsLaunched(cfg: Config, w: World, env: Env, head: Sha, rounds: nat)
    requires w.pc == ReviewBudget(head, rounds) && rounds == w.row.fixRounds
    requires w.row.invocations < cfg.maxInvocations && env.review.Some?
    ensures Leads(cfg, w, env, Answered(w, head, env.review.value))
  {
    hide Controller, Leads, WorkerPc, CiPc, EndPc;
    var w1 := ReviewSteps(cfg, w, env);
    var w2 := ReviewSteps(cfg, w1, env);
    var w3 := Answered(w, head, env.review.value);
    AtReview(cfg, w, env);
    AtReview(cfg, w1, env);
    AtReview(cfg, w2, env);
    assert ReviewSteps(cfg, w2, env) == w3;
    hide ReviewSteps, Answered;
    Stays(cfg, w3, env);
    Then(cfg, w2, env, w3);
    Then(cfg, w1, env, w3);
    Then(cfg, w, env, w3);
  }

  /** What a review comes to, from its answer: approval makes the run READY_FOR_OWNER, a request for
      changes FIX_REQUESTED with one more round while rounds are left, and anything else BLOCKED. */
  function ReviewEnd(cfg: Config, w: World, head: Sha, rounds: nat, review: ReviewResult, error: Text): World {
    var reviewed := w.row.(reviewStarted := None, reviewedHead := Some(head));
    if review.head != head then BlockedAs(w, error)
    else match review.verdict
      case Approve => w.(row := reviewed.(phase := ReadyForOwner), approved := w.approved + {head}, pc := LoopTop)
      case RequestChanges =>
        if rounds < cfg.maxFixRounds then w.(row := reviewed.(phase := FixRequested, fixRounds := rounds + 1), pc := LoopTop)
        else BlockedAs(w.(row := w.row.(reviewedHead := Some(head))), error)
      case CannotReview => BlockedAs(w.(row := w.row.(reviewedHead := Some(head))), error)
  }

  /** The last two writes after a verdict. */
  lemma PhaseIsWritten(cfg: Config, w: World, env: Env)
    requires w.pc.ToFix? || w.pc.ToReady?
    ensures Leads(cfg, w, env,
      w.(row := w.row.(phase := if w.pc.ToReady? then ReadyForOwner else FixRequested, reviewStarted := None), pc := LoopTop))
  {
    hide Controller, Leads, WorkerPc, CiPc, EndPc;
    var w1 := w.(row := w.row.(phase := if w.pc.ToReady? then ReadyForOwner else FixRequested), pc := ClearingReview);
    var w2 := w.(row := w1.row.(reviewStarted := None), pc := LoopTop);
    assert ReviewSteps(cfg, w, env) == w1 && ReviewSteps(cfg, w1, env) == w2;
    AtReview(cfg, w, env);
    AtReview(cfg, w1, env);
    hide ReviewSteps;
    Stays(cfg, w2, env);
    Then(cfg, w1, env, w2);
    Then(cfg, w, env, w2);
  }

  /** The writes after a verdict. */
  lemma VerdictIsWritten(cfg: Config, w: World, env: Env)
    requires w.pc.SavingRounds? || w.pc.ToReady?
    ensures Leads(cfg, w, env,
      if w.pc.ToReady? then w.(row := w.row.(phase := ReadyForOwner, reviewStarted := None), pc := LoopTop)
      else w.(row := w.row.(phase := FixRequested, fixRounds := w.pc.rounds, reviewStarted := None), pc := LoopTop))
  {
    hide Controller, Leads, WorkerPc, CiPc, EndPc;
    if w.pc.ToReady? {
      PhaseIsWritten(cfg, w, env);
    } else {
      var w1 := w.(row := w.row.(fixRounds := w.pc.rounds), pc := ToFix(w.pc.head));
      AtReview(cfg, w, env);
      PhaseIsWritten(cfg, w1, env);
      Then(cfg, w, env, w.(row := w.row.(phase := FixRequested, fixRounds := w.pc.rounds, reviewStarted := None), pc := LoopTop));
    }
  }

  lemma VerdictIsSaved(cfg: Config, w: World, env: Env, head: Sha, rounds: nat, review: ReviewResult)
    requires w.pc == Finishing(head, rounds, review) && review.head == head && CleanOn(w, head)
    ensures Leads(cfg, w, env, w.(
      row := w.row.(reviewedHead := Some(head)),
      approved := if review.verdict == Approve then w.approved + {head} else w.approved,
      pc := Deciding(head, rounds, review.verdict)))
  {
    hide Controller, Leads, WorkerPc, CiPc, EndPc;
    var w1 := ReviewSteps(cfg, w, env);
    var w2 := ReviewSteps(cfg, w1, env);
    AtReview(cfg, w, env);
    AtReview(cfg, w1, env);
    Stays(cfg, w2, env);
    Then(cfg, w1, env, w2);
    Then(cfg, w, env, w2);
  }

  lemma VerdictIsDecided(cfg: Config, w: World, env: Env, head: Sha, rounds: nat, verdict: ReviewVerdict)
    requires w.row.phase == ReviewRunning && w.pc == Deciding(head, rounds, verdict)
    ensures Leads(cfg, w, env,
      match verdict
      case Approve => w.(row := w.row.(phase := ReadyForOwner, reviewStarted := None), pc := LoopTop)
      case RequestChanges =>
        if rounds < cfg.maxFixRounds then
          w.(row := w.row.(phase := FixRequested, fixRounds := rounds + 1, reviewStarted := None), pc := LoopTop)
        else BlockedAs(w, env.error)
      case CannotReview => BlockedAs(w, env.error))
  {
    hide Controller, Leads, WorkerPc, CiPc, EndPc;
    var w1 := ReviewSteps(cfg, w, env);
    AtReview(cfg, w, env);
    if w1.pc.BlockReading? {
      FailureBlocks(cfg, w1, env);
      Then(cfg, w, env, BlockedAs(w1, env.error));
    } else {
      VerdictIsWritten(cfg, w1, env);
      var w2 := if w1.pc.ToReady? then w1.(row := w1.row.(phase := ReadyForOwner, reviewStarted := None), pc := LoopTop)
                else w1.(row := w1.row.(phase := FixRequested, fixRounds := w1.pc.rounds, reviewStarted := None), pc := LoopTop);
      Then(cfg, w, env, w2);
    }
  }

  lemma ReviewIsJudged(cfg: Config, w: World, env: Env, head: Sha, rounds: nat, review: ReviewResult)
    requires w.row.phase == ReviewRunning && w.pc == Finishing(head, rounds, review) && CleanOn(w, head)
    ensures Leads(cfg, w, env, ReviewEnd(cfg, w, head, rounds, review, env.error))
  {
    hide Controller, Leads, WorkerPc, CiPc, EndPc;
    if review.head != head {
      AtReview(cfg, w, env);
      FailureBlocks(cfg, w.(pc := BlockReading), env);
      Then(cfg, w, env, BlockedAs(w, env.error));
    } else {
      VerdictIsSaved(cfg, w, env, head, rounds, review);
      hide ReviewSteps, CleanOn;
      var w1 := w.(row := w.row.(reviewedHead := Some(head)),
                   approved := if review.verdict == Approve then w.approved + {head} else w.approved,
                   pc := Deciding(head, rounds, review.verdict));
      VerdictIsDecided(cfg, w1, env, head, rounds, review.verdict);
      Chains(cfg, w, env, w1, ReviewEnd(cfg, w, head, rounds, review, env.error));
    }
  }

  /** A review that cannot start. */
  lemma ReviewIsRefused(cfg: Config, w: World, env: Env)
    requires AtTop(w, ReviewRunning) && (w.row.head.None? || !CleanOn(w, w.row.head.value))
    ensures Leads(cfg, w, env, BlockedAs(w, env.error))
  {
    hide Controller, Leads, WorkerPc, CiPc, EndPc, Dispatch;
    var w1, w2 := w.(pc := ReviewCheck), w.(pc := BlockReading);
    AtLoop(cfg, w, env);
    DispatchesReview(cfg, w);
    AtReview(cfg, w1, env);
    FailureBlocks(cfg, w2, env);
    Then(cfg, w1, env, BlockedAs(w, env.error));
    Then(cfg, w, env, BlockedAs(w, env.error));
  }

  lemma ReviewIsUnpaid(cfg: Config, w: World, env: Env, head: Sha, rounds: nat)
    requires w.row.phase == ReviewRunning && w.pc == ReviewBudget(head, rounds) && w.row.invocations >= cfg.maxInvocations
    ensures Leads(cfg, w, env, BlockedAs(w, env.error))
  {
    hide Controller, Leads, WorkerPc, CiPc, EndPc;
    AtReview(cfg, w, env);
    FailureBlocks(cfg, w.(pc := BlockReading), env);
    Then(cfg, w, env, BlockedAs(w, env.error));
  }

  /** A review whose result survived a crash. */
  lemma ReviewIsRecovered(cfg: Config, w: World, env: Env, head: Sha)
    requires AtTop(w, ReviewRunning) && w.row.head == Some(head) && CleanOn(w, head)
    requires w.row.reviewStarted == Some(head) && env.review.Some?
    ensures Leads(cfg, w, env, ReviewEnd(cfg, w, head, w.row.fixRounds, env.review.value, env.error))
  {
    hide Controller, Leads, WorkerPc, CiPc, EndPc, Dispatch;
    var w1 := w.(pc := ReviewCheck);
    var w2 := w.(pc := Finishing(head, w.row.fixRounds, env.review.value));
    AtLoop(cfg, w, env);
    DispatchesReview(cfg, w);
    AtReview(cfg, w1, env);
    ReviewIsJudged(cfg, w2, env, head, w.row.fixRounds, env.review.value);
    Then(cfg, w1, env, ReviewEnd(cfg, w2, head, w.row.fixRounds, env.review.value, env.error));
    Then(cfg, w, env, ReviewEnd(cfg, w2, head, w.row.fixRounds, env.review.value, env.error));
  }

  /** A review at the top of the loop. It blocks without an exact, clean head; it takes up a result that
      survived a crash without a new invocation; otherwise it costs one, if one is left. Its answer
      then decides: READY_FOR_OWNER, one more counted fix round, or BLOCKED. */
  lemma ReviewRuns(cfg: Config, w: World, env: Env)
    requires AtTop(w, ReviewRunning) && env.review.Some?
    ensures Leads(cfg, w, env,
      if w.row.head.None? || !CleanOn(w, w.row.head.value) then BlockedAs(w, env.error)
      else
        var head, rounds, review := w.row.head.value, w.row.fixRounds, env.review.value;
        if w.row.reviewStarted == Some(head) then ReviewEnd(cfg, w, head, rounds, review, env.error)
        else if w.row.invocations >= cfg.maxInvocations then BlockedAs(w, env.error)
        else ReviewEnd(cfg, Answered(w, head, review), head, rounds, review, env.error))
  {
    hide Controller, Leads, ReviewEnd;
    if w.row.head.None? || !CleanOn(w, w.row.head.value) {
      ReviewIsRefused(cfg, w, env);
    } else {
      var head := w.row.head.value;
      if w.row.reviewStarted == Some(head) {
        ReviewIsRecovered(cfg, w, env, head);
      } else {
        ReviewIsBudgeted(cfg, w, env, head);
        var w1 := w.(pc := ReviewBudget(head, w.row.fixRounds));
        if w.row.invocations >= cfg.maxInvocations {
          ReviewIsUnpaid(cfg, w1, env, head, w.row.fixRounds);
          Chains(cfg, w, env, w1, BlockedAs(w, env.error));
        } else {
          NewReviewRuns(cfg, w1, env, head);
          Chains(cfg, w, env, w1, ReviewEnd(cfg, Answered(w, head, env.review.value), head, w.row.fixRounds, env.review.value, env.error));
        }
      }
    }
  }

  lemma NewReviewRuns(cfg: Config, w: World, env: Env, head: Sha)
    requires w.row.phase == ReviewRunning && w.pc == ReviewBudget(head, w.row.fixRounds) && CleanOn(w, head)
    requires w.row.invocations < cfg.maxInvocations && env.review.Some?
    ensures Leads(cfg, w, env, ReviewEnd(cfg, Answered(w, head, env.review.value), head, w.row.fixRounds, env.review.value, env.error))
  {
    ReviewIsLaunched(cfg, w, env, head, w.row.fixRounds);
    var w1 := Answered(w, head, env.review.value);
    assert CleanOn(w1, head) && w1.row.phase == ReviewRunning;
    hide Controller, Leads, Answered, ReviewEnd, CleanOn;
    ReviewIsJudged(cfg, w1, env, head, w.row.fixRounds, env.review.value);
    Chains(cfg, w, env, w1, ReviewEnd(cfg, w1, head, w.row.fixRounds, env.review.value, env.error));
  }

  /** A review that was started but left no result is started again, for a new invocation. */
  lemma LostReviewRestarts(cfg: Config, w: World, env: Env, head: Sha)
    requires AtTop(w, ReviewRunning) && w.row.head == Some(head) && CleanOn(w, head) && w.row.reviewStarted == Some(head)
    requires env.review.None?
    ensures Leads(cfg, w, env, w.(row := w.row.(reviewStarted := None), pc := ReviewBudget(head, w.row.fixRounds)))
  {
    hide Controller, Leads;
    ReviewIsBudgeted(cfg, w, env, head);
  }

  // ---------------------------------------------------------------------------------------------
  // The worker

  /** A worker may be launched: an invocation is left, the worktree is on the head the phase is about,
      and it is clean, or holds an interrupted worker's changes to that very head inside the grant. */
  predicate Launchable(cfg: Config, w: World) {
    && w.tree.Some?
    && var tree := w.tree.value;
    && w.row.invocations < cfg.maxInvocations
    && (if w.row.phase == ClaimedIssue then tree.head == cfg.base else w.row.head == Some(tree.head))
    && (match w.row.workerParent
        case None => tree.modified == {} && tree.staged == {}
        case Some(parent) =>
          && parent == tree.head
          && (tree.modified + tree.staged != {} ==> PathsOk(cfg.git, cfg.task, tree.modified + tree.staged)))
  }

  lemma DispatchesWorker(cfg: Config, w: World)
    requires AtTop(w, ClaimedIssue) || AtTop(w, FixRequested)
    ensures Dispatch(cfg, w) == w.(pc := WorkerCheck(w.row.phase))
  {
  }

  lemma WorkerIsChecked(cfg: Config, w: World, env: Env)
    requires w.row.phase in {ClaimedIssue, FixRequested} && w.pc == WorkerCheck(w.row.phase)
    ensures WorkerSteps(cfg, w, env) ==
      if Launchable(cfg, w) then w.(pc := Booking(w.row.phase, w.tree.value.head, w.row.invocations + 1))
      else w.(pc := BlockReading)
  {
    hide PathsOk;
  }

  lemma WorkerIsBooked(cfg: Config, w: World, env: Env, phase: RunPhase, parent: Sha)
    requires w.pc == Booking(phase, parent, w.row.invocations + 1)
    ensures Leads(cfg, w, env, w.(
      row := w.row.(phase := WorkerRunning, invocations := w.row.invocations + 1, workerParent := Some(parent)),
      pc := AgentWorking(parent)))
  {
    hide Controller, Leads, ReviewPc, CiPc, EndPc, WorkerMayStart, Attempt, ValidateRecovered;
    var w1 := w.(row := w.row.(invocations := w.row.invocations + 1, workerParent := Some(parent)), pc := Launching(phase, parent));
    var w2 := w.(row := w1.row.(phase := WorkerRunning), pc := AgentWorking(parent));
    assert WorkerSteps(cfg, w, env) == w1 && WorkerSteps(cfg, w1, env) == w2;
    AtWorker(cfg, w, env);
    AtWorker(cfg, w1, env);
    hide WorkerSteps;
    Stays(cfg, w2, env);
    Then(cfg, w1, env, w2);
    Then(cfg, w, env, w2);
  }

  /** A worker at the top of the loop is launched, for one invocation and with the parent of its commit
      on record, exactly when it may be; otherwise the run is BLOCKED. */
  lemma WorkerIsLaunched(cfg: Config, w: World, env: Env)
    requires AtTop(w, ClaimedIssue) || AtTop(w, FixRequested)
    ensures Leads(cfg, w, env,
      if Launchable(cfg, w) then
        var parent := w.tree.value.head;
        w.(row := w.row.(phase := WorkerRunning, invocations := w.row.invocations + 1, workerParent := Some(parent)),
           pc := AgentWorking(parent))
      else BlockedAs(w, env.error))
  {
    hide Controller, Leads, ReviewPc, CiPc, EndPc, Dispatch, WorkerSteps, Launchable;
    var w1 := w.(pc := WorkerCheck(w.row.phase));
    AtLoop(cfg, w, env);
    DispatchesWorker(cfg, w);
    AtWorker(cfg, w1, env);
    WorkerIsChecked(cfg, w1, env);
    LaunchableAnywhere(cfg, w, w1.pc);
    var end := if Launchable(cfg, w) then
        var parent := w.tree.value.head;
        w.(row := w.row.(phase := WorkerRunning, invocations := w.row.invocations + 1, workerParent := Some(parent)),
           pc := AgentWorking(parent))
      else BlockedAs(w, env.error);
    if Launchable(cfg, w) {
      WorkerIsBooked(cfg, w.(pc := Booking(w.row.phase, w.tree.value.head, w.row.invocations + 1)), env, w.row.phase, w.tree.value.head);
    } else {
      FailureBlocks(cfg, w.(pc := BlockReading), env);
    }
    Then(cfg, w1, env, end);
    Then(cfg, w, env, end);
  }

  lemma LaunchableAnywhere(cfg: Config, w: World, pc: Pc)
    ensures Launchable(cfg, w.(pc := pc)) == Launchable(cfg, w)
    ensures Launchable(cfg, w) ==> w.tree.Some?
  {
  }

  /** The commit that a worker's changes come to. */
  function CommitOf(cfg: Config, t: Tree, env: GitEnv): Sha {
    Commit([t.head], t.modified + t.staged, cfg.task.subject, env.rest)
  }

  /** The head is accepted: the run is WORKER_COMPLETE on it, with no review and no launch pending. */
  function CompletedAs(w: World, head: Sha): World {
    w.(row := w.row.(phase := WorkerComplete, head := Some(head), reviewedHead := None, workerParent := None), pc := LoopTop)
  }

  lemma HeadIsSaved(cfg: Config, w: World, env: Env, head: Sha)
    requires w.pc == SavingHead(head)
    ensures Leads(cfg, w, env, CompletedAs(w, head))
  {
    hide Controller, Leads, ReviewPc, CiPc, EndPc, WorkerMayStart, Attempt, ValidateRecovered;
    var w1 := WorkerSteps(cfg, w, env);
    var w2 := WorkerSteps(cfg, w1, env);
    var w3 := WorkerSteps(cfg, w2, env);
    AtWorker(cfg, w, env);
    AtWorker(cfg, w1, env);
    AtWorker(cfg, w2, env);
    assert w3 == CompletedAs(w, head);
    hide WorkerSteps, CompletedAs;
    Stays(cfg, w3, env);
    Then(cfg, w2, env, w3);
    Then(cfg, w1, env, w3);
    Then(cfg, w, env, w3);
  }

  /** The worktree and the list of commits after a commit was tried: with the new commit if it was made. */
  ghost predicate Tried(cfg: Config, w: World, parent: Sha, result: WorkerResult, env: Env, tree: Tree, made: seq<Sha>)
    requires w.tree.Some?
  {
    var t, head := w.tree.value, CommitOf(cfg, w.tree.value, env.git);
    if Commits(cfg, t, parent, result, env) then
      tree == Tree(t.branch, head, env.git.leftovers, {}) && made == w.made + [head]
    else tree.branch == t.branch && tree.head == t.head && tree.modified == t.modified && made == w.made
  }

  /** The commit is made. */
  ghost predicate Commits(cfg: Config, t: Tree, parent: Sha, result: WorkerResult, env: Env) {
    Committable(cfg.git, cfg.task, parent, result, t, env.git) && env.git.commitWorks
  }

  lemma AttemptIsTried(cfg: Config, w: World, parent: Sha, result: WorkerResult, env: Env)
    requires w.tree.Some?
    ensures var (w', head) := Attempt(cfg, w, parent, result, env);
      && w'.tree.Some? && w' == w.(tree := w'.tree, made := w'.made)
      && Tried(cfg, w, parent, result, env, w'.tree.value, w'.made)
      && head == if Commits(cfg, w.tree.value, parent, result, env) && env.git.leftovers == {}
                 then Some(CommitOf(cfg, w.tree.value, env.git)) else None
  {
    CommitIsMadeExactly(cfg.git, cfg.task, parent, result, w.tree.value, env.git);
    assert Committable(cfg.git, cfg.task, parent, result, w.tree.value, env.git) ==> w.tree.value.head == parent;
    hide ValidateAndCommit, Committable;
  }

  /** A commit that is accepted completes the round; any other failure that is not retried blocks it, with
      the worktree as the attempt left it. */
  lemma CommitIsTried(cfg: Config, w: World, env: Env, parent: Sha, result: WorkerResult) returns (tree: Tree, made: seq<Sha>)
    requires w.row.phase == WorkerRunning && w.pc == Committing(parent, result) && w.tree.Some?
    ensures Tried(cfg, w, parent, result, env, tree, made)
    ensures var tried := w.(tree := Some(tree), made := made);
      Leads(cfg, w, env,
        if Commits(cfg, w.tree.value, parent, result, env) && env.git.leftovers == {} then
          CompletedAs(tried, CommitOf(cfg, w.tree.value, env.git))
        else BlockedAs(tried, env.error))
  {
    hide Controller, Leads, ReviewPc, CiPc, EndPc, WorkerMayStart, Attempt, ValidateRecovered, Tried, Commits, CommitOf;
    AttemptIsTried(cfg, w, parent, result, env);
    var (w', head) := Attempt(cfg, w, parent, result, env);
    tree, made := w'.tree.value, w'.made;
    AtWorker(cfg, w, env);
    var tried := w.(tree := Some(tree), made := made);
    if head.Some? {
      HeadIsSaved(cfg, w'.(pc := SavingHead(head.value)), env, head.value);
      Then(cfg, w, env, CompletedAs(tried, head.value));
    } else {
      FailureBlocks(cfg, w'.(pc := BlockReading), env);
      Then(cfg, w, env, BlockedAs(tried, env.error));
    }
  }

  /** A worker that has answered: a success is committed, and a commit on the recorded parent that git
      makes and leaves clean completes the round on exactly the pending files; anything else blocks. */
  lemma WorkerEnds(cfg: Config, w: World, env: Env, parent: Sha) returns (tree: Tree, made: seq<Sha>)
    requires w.row.phase == WorkerRunning && w.pc == AgentWorking(parent) && w.tree.Some? && env.worker.Some?
    ensures env.worker.value.success ==> Tried(cfg, w, parent, env.worker.value, env, tree, made)
    ensures !env.worker.value.success ==> tree == w.tree.value && made == w.made
    ensures var tried := w.(tree := Some(tree), made := made);
      Leads(cfg, w, env,
        if env.worker.value.success && Commits(cfg, w.tree.value, parent, env.worker.value, env) && env.git.leftovers == {} then
          CompletedAs(tried, CommitOf(cfg, w.tree.value, env.git))
        else BlockedAs(tried, env.error))
  {
    hide Controller, Leads, ReviewPc, CiPc, EndPc, WorkerMayStart, Attempt, ValidateRecovered, Commits, CommitOf;
    AtWorker(cfg, w, env);
    if env.worker.value.success {
      var w1 := w.(pc := Committing(parent, env.worker.value));
      tree, made := CommitIsTried(cfg, w1, env, parent, env.worker.value);
      var tried := w.(tree := Some(tree), made := made);
      hide WorkerSteps, Tried;
      Then(cfg, w, env,
        if Commits(cfg, w.tree.value, parent, env.worker.value, env) && env.git.leftovers == {} then
          CompletedAs(tried, CommitOf(cfg, w.tree.value, env.git))
        else BlockedAs(tried, env.error));
    } else {
      tree, made := w.tree.value, w.made;
      FailureBlocks(cfg, w.(pc := BlockReading), env);
      Then(cfg, w, env, BlockedAs(w, env.error));
    }
  }
}
