/** Owner-gate soundness, over every schedule. */
module RunnerGate {
  import opened Common
  import opened RunnerModels
  import opened RunnerGit
  import opened RunnerCi
  import opened RunnerMachine
  import opened RunnerPlaces

  // ---------------------------------------------------------------------------------------------
  // What holds in every run, whatever its commands do

  predicate AtGate(p: RunPhase) { p in {ReadyForOwner, OwnerMerged, CompletedRun} }

  /** The current head is the reviewed head, its review passed and its required checks succeeded. */
  predicate Evidenced(w: World) {
    && w.row.head.Some?
    && w.row.reviewedHead == w.row.head
    && w.row.head.value in w.approved
    && w.row.head.value in w.ciPassed
  }

  /** The head is `h` and CI passed for it. */
  predicate CiFor(w: World, h: Sha) { w.row.head == Some(h) && h in w.ciPassed }

  /** What the controller's locals say of the row. */
  predicate LocalsHold(w: World) {
    match w.pc
    case CiCheck(h) => w.row.head == Some(h)
    case CiWait(h) => w.row.head == Some(h)
    case SavingCi(h, _) => CiFor(w, h)
    case ToReview(h) => CiFor(w, h)
    case ReviewCheck => w.row.head.Some? && CiFor(w, w.row.head.value)
    case ClearingStale(h, _) => CiFor(w, h)
    case ReviewBudget(h, _) => CiFor(w, h)
    case ReviewBooking(h, _, _) => CiFor(w, h)
    case Reviewing(h, _) => CiFor(w, h)
    case Finishing(h, _, _) => CiFor(w, h)
    case SavingReview(h, _, r) => CiFor(w, h) && r.head == h
    case Deciding(h, _, verdict) => CiFor(w, h) && w.row.reviewedHead == Some(h) && (verdict == Approve ==> h in w.approved)
    case ToReady(h) => CiFor(w, h) && w.row.reviewedHead == Some(h) && h in w.approved
    case DeliverCheck(h) => w.row.head == Some(h)
    case ToCompleted(h) => w.row.head == w.row.reviewedHead == Some(h)
    case _ => true
  }

  /** Under review the checks of the head have passed, and a run READY_FOR_OWNER has all its evidence. */
  predicate Core(w: World) {
    && PlaceCore(w)
    && LocalsHold(w)
    && (w.row.phase == ReviewRunning ==> w.row.head.Some? && CiFor(w, w.row.head.value))
    && (w.row.phase == ReadyForOwner ==> Evidenced(w))
  }

  /** A resume has seen the evidence for the head it carries. */
  predicate OperatorHolds(w: World, o: Operator) {
    && (o.RecoverPassed? ==> o.head in w.ciPassed)
    && (o.RecoverFixing? ==> o.phase in {CiWaiting, BlockedRun})
    && (o.ResumeMerging? || o.ResumeMoving? ==> o.head in w.ciPassed && o.head in w.approved)
  }

  ghost predicate OperatorsHold(w: World) {
    forall id :: id in w.operators ==> OperatorHolds(w, w.operators[id])
  }

  ghost predicate CoreInv(w: World) { Core(w) && OperatorsHold(w) }

  // ---------------------------------------------------------------------------------------------
  // The gate

  /** A worker's launch, commit or publication is under way: the head is about to move, or its review
      about to be dropped. */
  predicate HeadMoves(pc: Pc) {
    || pc.AgentWorking? || pc.Committing? || pc.RecoverCheck? || pc.Recommitting? || pc.SavingHead?
    || pc.PublishCheck? || pc.Publishing?
  }

  /** The head whose merge was confirmed is the row's head, and it is evidenced. */
  predicate MergedHeadIsEvidenced(w: World) { Evidenced(w) && w.confirmed == w.row.head }

  /** Past READY_FOR_OWNER: the merged head is evidenced, and nothing is about to change that. */
  predicate GateHolds(w: World) {
    && (w.row.phase in {OwnerMerged, CompletedRun} ==> MergedHeadIsEvidenced(w) && !HeadMoves(w.pc))
    && (w.pc.DeliverCheck? || w.pc.ToCompleted? ==> MergedHeadIsEvidenced(w))
  }

  predicate Gated(w: World) { Core(w) && GateHolds(w) }

  /** The last write of a resume whose row is no longer what the command read, or whose head moves. */
  predicate BlindResume(w: World, step: Step) {
    && step.Operate? && step.id in w.operators && w.operators[step.id].ResumeMoving?
    && !(w.row.head == w.row.reviewedHead == Some(w.operators[step.id].head) && !HeadMoves(w.pc))
  }

  /** The controller never touches the operators, and evidence is never withdrawn. */
  predicate KeepsEvidence(w: World, w': World) {
    w'.operators == w.operators && w'.confirmed == w.confirmed && w.ciPassed <= w'.ciPassed && w.approved <= w'.approved
  }

  /** A step of the controller keeps what holds in every run, and keeps the gate. */
  predicate Keeps(w: World, w': World) {
    Core(w') && KeepsEvidence(w, w') && (GateHolds(w) ==> GateHolds(w'))
  }

  lemma LaunchKeeps(cfg: Config, w: World, env: Env)
    requires Core(w) && Launches(w.pc) && Controlled(w, WorkerSteps(cfg, w, env))
    ensures Keeps(w, WorkerSteps(cfg, w, env))
  {
    hide WorkerMayStart;
  }

  lemma CommitKeeps(cfg: Config, w: World, env: Env)
    requires Core(w) && (w.pc.Committing? || w.pc.Recommitting?) && Controlled(w, WorkerSteps(cfg, w, env))
    ensures Keeps(w, WorkerSteps(cfg, w, env))
  {
    hide Attempt;
    if w.tree.Some? {
      AttemptFrame(cfg, w, w.pc.parent, w.pc.result, env);
    }
  }

  lemma WorkerKeeps(cfg: Config, w: World, env: Env)
    requires Core(w) && Controlled(w, WorkerSteps(cfg, w, env))
    requires WorkerPc(w.pc) && !Launches(w.pc) && !w.pc.Committing? && !w.pc.Recommitting?
    ensures Keeps(w, WorkerSteps(cfg, w, env))
  {
    hide ValidateRecovered;
  }

  lemma PublishKeeps(cfg: Config, w: World, env: Env)
    requires Core(w) && CiPc(w.pc) && !WaitsForCi(w.pc) && Controlled(w, CiSteps(cfg, w, env))
    ensures Keeps(w, CiSteps(cfg, w, env))
  {
    hide OnTree;
  }

  lemma CiKeeps(cfg: Config, w: World, env: Env)
    requires Core(w) && WaitsForCi(w.pc) && Controlled(w, CiSteps(cfg, w, env))
    ensures Keeps(w, CiSteps(cfg, w, env))
  {
    hide Judge, CleanOn, OnTree;
  }

  lemma ReviewStarts(cfg: Config, w: World, env: Env)
    requires Core(w) && (w.pc.ReviewCheck? || w.pc.ClearingStale? || w.pc.ReviewBudget?) && Controlled(w, ReviewSteps(cfg, w, env))
    ensures Keeps(w, ReviewSteps(cfg, w, env))
  {
    hide CleanOn;
  }

  lemma ReviewerRuns(cfg: Config, w: World, env: Env)
    requires Core(w) && (w.pc.ReviewBooking? || w.pc.Reviewing? || w.pc.Finishing?) && Controlled(w, ReviewSteps(cfg, w, env))
    ensures Keeps(w, ReviewSteps(cfg, w, env))
  {
    hide CleanOn;
  }

  lemma ReviewIsSaved(cfg: Config, w: World, env: Env)
    requires Core(w) && w.pc.SavingReview? && Controlled(w, ReviewSteps(cfg, w, env))
    ensures Keeps(w, ReviewSteps(cfg, w, env))
  {
  }

  lemma VerdictKeeps(cfg: Config, w: World, env: Env)
    requires Core(w) && w.pc.Deciding? && Controlled(w, ReviewSteps(cfg, w, env))
    ensures Keeps(w, ReviewSteps(cfg, w, env))
  {
  }

  lemma RoundsKeep(cfg: Config, w: World, env: Env)
    requires Core(w) && w.pc.SavingRounds? && Controlled(w, ReviewSteps(cfg, w, env))
    ensures Keeps(w, ReviewSteps(cfg, w, env))
  {
  }

  lemma ReviewCloses(cfg: Config, w: World, env: Env)
    requires Core(w) && (w.pc.ToFix? || w.pc.ToReady? || w.pc.ClearingReview?) && Controlled(w, ReviewSteps(cfg, w, env))
    ensures Keeps(w, ReviewSteps(cfg, w, env))
  {
  }

  lemma DeliveryKeeps(w: World, env: Env)
    requires Core(w) && (w.pc.DeliverCheck? || w.pc.ToCompleted? || w.pc.Stopping? || w.pc.StopMoving?) && Controlled(w, EndSteps(w, env))
    ensures Keeps(w, EndSteps(w, env))
  {
  }

  lemma BlockKeeps(w: World, env: Env)
    requires Core(w) && (w.pc.BlockReading? || w.pc.BlockWriting? || w.pc.BlockMoving?) && Controlled(w, EndSteps(w, env))
    ensures Keeps(w, EndSteps(w, env))
  {
  }

  lemma LoopKeeps(cfg: Config, w: World)
    requires Core(w) && w.pc.LoopTop? && Controlled(w, Dispatch(cfg, w))
    ensures Keeps(w, Dispatch(cfg, w))
  {
  }

  lemma RestKeepsAll(w: World)
    requires Core(w)
    ensures Keeps(w, w)
    ensures w.pc.ToClaimed? ==> Keeps(w, Moved(w, ClaimedIssue, LoopTop))
  {
  }

  lemma ControllerKeeps(cfg: Config, w: World, env: Env)
    requires Core(w)
    ensures Keeps(w, Controller(cfg, w, env))
  {
    ControllerStaysPlaced(cfg, w, env);
    hide Keeps, Controlled, WorkerSteps, CiSteps, ReviewSteps, EndSteps, Dispatch, PlaceCore, LocalsHold, Evidenced;
    if w.pc.LoopTop? {
      LoopKeeps(cfg, w);
    } else if w.pc.Committing? || w.pc.Recommitting? {
      CommitKeeps(cfg, w, env);
    } else if Launches(w.pc) {
      LaunchKeeps(cfg, w, env);
    } else if WorkerPc(w.pc) {
      WorkerKeeps(cfg, w, env);
    } else if WaitsForCi(w.pc) {
      CiKeeps(cfg, w, env);
    } else if CiPc(w.pc) {
      PublishKeeps(cfg, w, env);
    } else if w.pc.BlockReading? || w.pc.BlockWriting? || w.pc.BlockMoving? {
      BlockKeeps(w, env);
    } else if EndPc(w.pc) {
      DeliveryKeeps(w, env);
    } else if w.pc.ReviewCheck? || w.pc.ClearingStale? || w.pc.ReviewBudget? {
      ReviewStarts(cfg, w, env);
    } else if w.pc.ReviewBooking? || w.pc.Reviewing? || w.pc.Finishing? {
      ReviewerRuns(cfg, w, env);
    } else if w.pc.SavingReview? {
      ReviewIsSaved(cfg, w, env);
    } else if w.pc.Deciding? {
      VerdictKeeps(cfg, w, env);
    } else if w.pc.SavingRounds? {
      RoundsKeep(cfg, w, env);
    } else if ReviewPc(w.pc) {
      ReviewCloses(cfg, w, env);
    } else {
      RestKeepsAll(w);
    }
  }

  lemma ResumeKeeps(w: World, head: Sha)
    requires Core(w) && head in w.ciPassed && head in w.approved
    ensures var w' := w.(row := w.row.(phase := OwnerMerged), confirmed := Some(head));
      && Core(w')
      && (GateHolds(w) ==> (GateHolds(w') <==> w.row.head == w.row.reviewedHead == Some(head) && !HeadMoves(w.pc)))
  {
  }

  lemma MergeShaKeeps(w: World, merged: Option<Sha>)
    requires Core(w)
    ensures var w' := w.(row := w.row.(desired := KeepRunning, mergeSha := merged)); Core(w') && (GateHolds(w') <==> GateHolds(w))
  {
  }

  lemma StopKeeps(w: World)
    requires Core(w)
    ensures var w' := w.(row := w.row.(phase := StoppedRun)); Core(w') && (GateHolds(w) ==> GateHolds(w'))
  {
  }

  lemma RecoveryKeeps(w: World, rounds: nat, head: Sha, run: nat)
    requires Core(w)
    ensures w.row.phase in {CiWaiting, BlockedRun} ==>
      var w' := w.(row := WithFix(w.row, rounds, run)); Core(w') && (GateHolds(w) ==> GateHolds(w'))
    ensures RecoveryExpected(w.row, head) && head in w.ciPassed ==>
      var w' := w.(row := Recovered(w.row, run)); Core(w') && (GateHolds(w) ==> GateHolds(w'))
  {
  }

  lemma MoreEvidenceKeeps(w: World, head: Sha)
    requires Core(w)
    ensures var w' := w.(ciPassed := w.ciPassed + {head}); Core(w') && (GateHolds(w) ==> GateHolds(w'))
  {
  }

  lemma OperatorFrame(w: World, id: nat, o: Operator)
    requires Core(w)
    ensures Core(OperatorAt(w, id, o)) && (GateHolds(OperatorAt(w, id, o)) <==> GateHolds(w))
  {
  }

  lemma ReadyIsEvidence(w: World)
    requires Core(w) && w.row.phase == ReadyForOwner && w.row.head.Some?
    ensures w.row.head.value in w.ciPassed && w.row.head.value in w.approved
  {
  }

  /** What a step of one command does for itself and for the gate. */
  predicate Commanded(w: World, w': World, id: nat, blind: bool)
    requires id in w.operators
  {
    && Core(w')
    && (GateHolds(w) ==> (GateHolds(w') <==> !blind))
    && w.ciPassed <= w'.ciPassed && w'.approved == w.approved
    && id in w'.operators && w'.operators == w.operators[id := w'.operators[id]]
    && OperatorHolds(w', w'.operators[id])
  }

  lemma ReaderReads(cfg: Config, w: World, id: nat, env: Env, merged: Option<Sha>)
    requires id in w.operators
    requires var o := w.operators[id]; o.ResumeReading? || o.RecoverReading? || o.RecoverFailed? || o.StopReading? || o.Finished?
    ensures var w' := OperatorStep(cfg, w, id, env, merged);
      && id in w'.operators && w' == OperatorAt(w, id, w'.operators[id])
      && var o := w'.operators[id];
        && !o.RecoverPassed? && !o.ResumeMoving?
        && (o.RecoverFixing? ==> o.phase in {CiWaiting, BlockedRun})
        && (o.ResumeMerging? ==> w.row.phase == ReadyForOwner && w.row.head == Some(o.head))
  {
    hide CleanOn;
    assert w.operators == w.operators[id := w.operators[id]];
  }

  lemma ReaderKeeps(cfg: Config, w: World, id: nat, env: Env, merged: Option<Sha>)
    requires Core(w) && id in w.operators
    requires var o := w.operators[id]; o.ResumeReading? || o.RecoverReading? || o.RecoverFailed? || o.StopReading? || o.Finished?
    ensures Commanded(w, OperatorStep(cfg, w, id, env, merged), id, false)
  {
    ReaderReads(cfg, w, id, env, merged);
    var w' := OperatorStep(cfg, w, id, env, merged);
    if w.row.phase == ReadyForOwner && w.row.head.Some? {
      ReadyIsEvidence(w);
    }
    OperatorFrame(w, id, w'.operators[id]);
    hide Core, GateHolds, OperatorStep;
  }

  lemma WriterKeeps(cfg: Config, w: World, id: nat, env: Env, merged: Option<Sha>)
    requires Core(w) && id in w.operators && OperatorHolds(w, w.operators[id])
    requires var o := w.operators[id];
      o.RecoverWaiting? || o.RecoverPassed? || o.RecoverFixing? || o.StopWriting? || o.ResumeMerging?
    ensures Commanded(w, OperatorStep(cfg, w, id, env, merged), id, false)
  {
    hide Core, GateHolds, Judge, CleanOn, RecoveryExpected, Recovered, FixExpected, WithFix;
    var o := w.operators[id];
    var w' := OperatorStep(cfg, w, id, env, merged);
    assert w.operators == w.operators[id := o];
    match o {
      case ResumeMerging(_) => MergeShaKeeps(w, merged);
      case RecoverWaiting(head) => MoreEvidenceKeeps(w, head);
      case RecoverPassed(head, run) => RecoveryKeeps(w, 0, head, run);
      case RecoverFixing(phase, head, rounds, run) =>
        FixIsWhereExpected(w.row, phase, head, rounds);
        RecoveryKeeps(w, rounds + 1, head, run);
      case StopWriting => StopKeeps(w);
    }
    OperatorFrame(w'.(operators := w.operators), id, w'.operators[id]);
  }

  lemma FixIsWhereExpected(row: WorkColumns, phase: RunPhase, head: Sha, rounds: nat)
    ensures FixExpected(row, phase, head, rounds) ==> row.phase == phase
  {
  }

  lemma MoverKeeps(cfg: Config, w: World, id: nat, env: Env, merged: Option<Sha>)
    requires Core(w) && id in w.operators && OperatorHolds(w, w.operators[id]) && w.operators[id].ResumeMoving?
    ensures Commanded(w, OperatorStep(cfg, w, id, env, merged), id, BlindResume(w, Operate(id, env, merged)))
  {
    var o := w.operators[id];
    var w' := OperatorStep(cfg, w, id, env, merged);
    ResumeKeeps(w, o.head);
    hide Core, GateHolds, HeadMoves;
    assert w.operators == w.operators[id := o];
    OperatorFrame(w'.(operators := w.operators), id, w'.operators[id]);
  }

  lemma OperatorKeeps(cfg: Config, w: World, id: nat, env: Env, merged: Option<Sha>)
    requires Core(w) && id in w.operators && OperatorHolds(w, w.operators[id])
    ensures Commanded(w, OperatorStep(cfg, w, id, env, merged), id, BlindResume(w, Operate(id, env, merged)))
  {
    var o := w.operators[id];
    if o.ResumeMoving? {
      MoverKeeps(cfg, w, id, env, merged);
    } else if o.RecoverWaiting? || o.RecoverPassed? || o.RecoverFixing? || o.StopWriting? || o.ResumeMerging? {
      WriterKeeps(cfg, w, id, env, merged);
    } else {
      ReaderKeeps(cfg, w, id, env, merged);
    }
    hide Commanded, OperatorStep, Core, OperatorHolds;
  }

  lemma OperatorsKeep(w: World, w': World)
    requires OperatorsHold(w) && w.ciPassed <= w'.ciPassed && w.approved <= w'.approved
    requires forall id :: id in w'.operators ==> (id in w.operators && w'.operators[id] == w.operators[id]) || OperatorHolds(w', w'.operators[id])
    ensures OperatorsHold(w')
  {
  }

  /** Every step keeps what holds in every run, and keeps the gate if and only if it is not a blind
      resume. */
  lemma StepKeeps(cfg: Config, w: World, step: Step)
    requires CoreInv(w)
    ensures CoreInv(Do(cfg, w, step))
    ensures GateHolds(w) ==> (GateHolds(Do(cfg, w, step)) <==> !BlindResume(w, step))
  {
    hide WorkerSteps, CiSteps, ReviewSteps, EndSteps, Dispatch;
    if step.Advance? {
      hide Core, GateHolds, Controller;
      ControllerKeeps(cfg, w, step.env);
      OperatorsKeep(w, Do(cfg, w, step));
    } else if step.Operate? {
      if step.id in w.operators {
        assert OperatorHolds(w, w.operators[step.id]);
        hide Core, GateHolds, OperatorStep, BlindResume;
        OperatorKeeps(cfg, w, step.id, step.env, step.merged);
        OperatorsKeep(w, Do(cfg, w, step));
      } else {
        assert Do(cfg, w, step) == w;
      }
    } else {
      OtherStepsKeep(cfg, w, step);
      hide Core, GateHolds, Do;
      OperatorsKeep(w, Do(cfg, w, step));
    }
  }

  lemma RestKeeps(w: World, pc: Pc)
    requires Core(w) && pc in {Idle, LoopTop, Stopping, BlockReading}
    ensures Core(At(w, pc)) && (GateHolds(w) ==> GateHolds(At(w, pc)))
  {
  }

  lemma ViewKeeps(w: World, w': World)
    requires Core(w) && w' == w.(row := w.row.(desired := w'.row.desired), tree := w'.tree, operators := w'.operators)
    ensures Core(w') && (GateHolds(w) ==> GateHolds(w'))
  {
  }

  lemma OtherStepsKeep(cfg: Config, w: World, step: Step)
    requires Core(w) && !step.Advance? && !step.Operate?
    ensures var w' := Do(cfg, w, step);
      && Core(w') && (GateHolds(w) ==> GateHolds(w'))
      && w'.ciPassed == w.ciPassed && w'.approved == w.approved
      && forall id :: id in w'.operators ==> (id in w.operators && w'.operators[id] == w.operators[id]) || FirstStep(w'.operators[id])
  {
    hide Core, GateHolds;
    var w' := Do(cfg, w, step);
    if step.SetDesired? || step.Edit? || step.MoveHead? || step.Command? {
      ViewKeeps(w, w');
    } else if w'.pc != w.pc {
      RestKeeps(w, w'.pc);
    }
  }

  lemma StartHolds(cfg: Config, start: World)
    requires Start(cfg, start)
    ensures CoreInv(start) && GateHolds(start)
  {
  }

  lemma {:induction false} EveryRunKeepsCore(cfg: Config, start: World, schedule: seq<Step>)
    requires Start(cfg, start)
    ensures CoreInv(RunFrom(cfg, start, schedule))
  {
    if schedule == [] {
      StartHolds(cfg, start);
    } else {
      var front := schedule[..|schedule| - 1];
      EveryRunKeepsCore(cfg, start, front);
      StepKeeps(cfg, RunFrom(cfg, start, front), schedule[|schedule| - 1]);
    }
  }

  // ---------------------------------------------------------------------------------------------
  // Theorems about every run, legacy rows included

  /** Over every schedule, with no exception: a run READY_FOR_OWNER has its reviewed head equal to its
      head, a PASS review of that head, and CI success of all required checks for it. */
  lemma ReadyForOwnerIsEvidenced(cfg: Config, start: World, schedule: seq<Step>)
    requires Start(cfg, start)
    ensures var w := RunFrom(cfg, start, schedule); w.row.phase == ReadyForOwner ==> Evidenced(w)
  {
    EveryRunKeepsCore(cfg, start, schedule);
  }

  /** When the last write of a resume lands on the evidence it stands for: if and only if the row still
      shows, as head and as reviewed head, the head the command read. The write itself checks neither. */
  lemma ResumeIsSoundExactlyOnItsRow(cfg: Config, start: World, schedule: seq<Step>, id: nat, env: Env, merged: Option<Sha>)
    requires Start(cfg, start)
    requires var w := RunFrom(cfg, start, schedule); id in w.operators && w.operators[id].ResumeMoving?
    ensures var w := RunFrom(cfg, start, schedule);
      var w' := Do(cfg, w, Operate(id, env, merged));
      && w'.row.phase == OwnerMerged && w'.confirmed == Some(w.operators[id].head)
      && (MergedHeadIsEvidenced(w') <==> w.row.head == w.row.reviewedHead == Some(w.operators[id].head))
  {
    EveryRunKeepsCore(cfg, start, schedule);
    var w := RunFrom(cfg, start, schedule);
    assert OperatorHolds(w, w.operators[id]);
    hide RunFrom, Core;
  }

  ghost predicate GateAlwaysHolds(cfg: Config, start: World, schedule: seq<Step>) {
    forall i :: 0 <= i <= |schedule| ==> GateHolds(RunFrom(cfg, start, schedule[..i]))
  }

  ghost predicate NeverBlind(cfg: Config, start: World, schedule: seq<Step>) {
    forall i :: 0 <= i < |schedule| ==> !BlindResume(RunFrom(cfg, start, schedule[..i]), schedule[i])
  }

  lemma RunsOn(cfg: Config, start: World, schedule: seq<Step>)
    requires schedule != []
    ensures var n := |schedule|;
      RunFrom(cfg, start, schedule[..n]) == Do(cfg, RunFrom(cfg, start, schedule[..n - 1]), schedule[n - 1])
  {
    assert schedule[..|schedule|] == schedule;
  }

  lemma PrefixesAgree(schedule: seq<Step>, i: nat)
    requires 0 <= i < |schedule|
    ensures schedule[..|schedule| - 1][..i] == schedule[..i]
  {
  }

  lemma FrontOfGate(cfg: Config, start: World, schedule: seq<Step>)
    requires schedule != []
    ensures GateAlwaysHolds(cfg, start, schedule) <==>
            && GateAlwaysHolds(cfg, start, schedule[..|schedule| - 1])
            && GateHolds(Do(cfg, RunFrom(cfg, start, schedule[..|schedule| - 1]), schedule[|schedule| - 1]))
  {
    hide RunFrom, GateHolds, Do;
    RunsOn(cfg, start, schedule);
    var front := schedule[..|schedule| - 1];
    forall i | 0 <= i < |schedule| ensures front[..i] == schedule[..i] {
      PrefixesAgree(schedule, i);
    }
    if GateAlwaysHolds(cfg, start, front) {
      forall i | 0 <= i < |schedule| ensures GateHolds(RunFrom(cfg, start, schedule[..i])) {
        assert GateHolds(RunFrom(cfg, start, front[..i]));
      }
    }
  }

  lemma FrontOfResumes(cfg: Config, start: World, schedule: seq<Step>)
    requires schedule != []
    ensures NeverBlind(cfg, start, schedule) <==>
            && NeverBlind(cfg, start, schedule[..|schedule| - 1])
            && !BlindResume(RunFrom(cfg, start, schedule[..|schedule| - 1]), schedule[|schedule| - 1])
  {
    hide RunFrom, BlindResume;
    var front := schedule[..|schedule| - 1];
    forall i | 0 <= i < |schedule| ensures front[..i] == schedule[..i] {
      PrefixesAgree(schedule, i);
    }
    if NeverBlind(cfg, start, front) {
      forall i | 0 <= i < |front| ensures !BlindResume(RunFrom(cfg, start, schedule[..i]), schedule[i]) {
        assert !BlindResume(RunFrom(cfg, start, front[..i]), front[i]);
      }
    }
  }

  /** Over every schedule from any start: the gate holds all the way if and only if no resume writes
      blindly. */
  lemma {:induction false} GateHoldsExactlyWithoutBlindResumes(cfg: Config, start: World, schedule: seq<Step>)
    requires Start(cfg, start)
    ensures GateAlwaysHolds(cfg, start, schedule) <==> NeverBlind(cfg, start, schedule)
  {
    if schedule == [] {
      StartHolds(cfg, start);
    } else {
      var front, step := schedule[..|schedule| - 1], schedule[|schedule| - 1];
      FrontOfGate(cfg, start, schedule);
      FrontOfResumes(cfg, start, schedule);
      GateHoldsExactlyWithoutBlindResumes(cfg, start, front);
      EveryRunKeepsCore(cfg, start, front);
      StepKeeps(cfg, RunFrom(cfg, start, front), step);
      assert front[..|front|] == front;
      hide RunFrom, GateHolds, BlindResume, Do, CoreInv, NeverBlind;
    }
  }

  /** The part of that condition which is not in the row shows there too: while the head moves, the gate
      holding, the row is WORKER_RUNNING, WORKER_COMPLETE or STOPPED. */
  lemma MovingHeadShows(cfg: Config, start: World, schedule: seq<Step>)
    requires Start(cfg, start)
    ensures var w := RunFrom(cfg, start, schedule);
      GateHolds(w) && HeadMoves(w.pc) ==> w.row.phase in {WorkerRunning, WorkerComplete, StoppedRun}
  {
    EveryRunKeepsCore(cfg, start, schedule);
    hide RunFrom;
  }

  /** The last write of a recovery from a failed CI run, when its guard lets it through. */
  predicate RecoveryWrites(w: World, step: Step) {
    && step.Operate? && step.id in w.operators && (w.operators[step.id].RecoverPassed? || w.operators[step.id].RecoverFixing?)
    && Writes(w, step).Some?
  }

  /** What makes a resume blind: a recovery write takes the review back, and the pending resume, going on
      as it began, takes the run past the owner gate without a reviewed head. */
  lemma RecoveryUnderResumeBreaksGate(cfg: Config, w: World, step: Step, id: nat, env: Env, merged: Sha)
    requires RecoveryWrites(w, step) && id in w.operators && (w.operators[id].ResumeMerging? || w.operators[id].ResumeMoving?)
    ensures var w1 := Do(cfg, w, step);
      var w2 := if w.operators[id].ResumeMerging? then Do(cfg, w1, Operate(id, env, Some(merged))) else w1;
      var w3 := Do(cfg, w2, Operate(id, env, None));
      && BlindResume(w2, Operate(id, env, None))
      && w3.row.phase == OwnerMerged && w3.row.head.Some? && w3.row.reviewedHead.None? && !Evidenced(w3)
  {
    RecoveryTakesReviewBack(cfg, w, step);
    hide RecoveryWrites, Judge, CleanOn;
    assert Do(cfg, w, step).operators[id] == w.operators[id];
  }

  lemma RecoveryTakesReviewBack(cfg: Config, w: World, step: Step)
    requires RecoveryWrites(w, step)
    ensures var w' := Do(cfg, w, step);
      && w'.row.head.Some? && w'.row.reviewedHead.None?
      && forall id :: id in w.operators && id != step.id ==> id in w'.operators && w'.operators[id] == w.operators[id]
  {
  }

  // ---------------------------------------------------------------------------------------------
  // Runs that the present loop starts

  /** The present loop never blocks a run with the error of a failed CI run: every `CiFailed` is caught
      and becomes a fix request. */
  ghost predicate PresentErrors(cfg: Config, schedule: seq<Step>) {
    forall i :: 0 <= i < |schedule| && schedule[i].Advance? && Run(cfg, schedule[..i]).pc.BlockWriting? ==>
      schedule[i].env.error !in cfg.ciErrors
  }

  /** Where the controller may still move the head or the review. */
  predicate Mutating(pc: Pc) {
    !(pc.Idle? || pc.LoopTop? || pc.ClearingParent? || pc.RestoringParent? || pc.ClearingReview? || pc.DeliverCheck?
      || pc.ToCompleted? || pc.Stopping? || pc.StopMoving? || pc.BlockReading? || pc.BlockWriting? || pc.BlockMoving?)
  }

  /** Past review: the evidence is in the row and the controller has nothing left that could move it. */
  predicate Settled(w: World, head: Sha) {
    && w.row.head == Some(head) && Evidenced(w) && !Mutating(w.pc)
    && (AtGate(w.row.phase) || w.row.phase in {StoppedRun, BlockedRun})
  }

  predicate AfterReview(o: Operator) { o.ResumeMerging? || o.ResumeMoving? }

  predicate Recovering(o: Operator) { o.RecoverWaiting? || o.RecoverPassed? || o.RecoverFailed? || o.RecoverFixing? }

  predicate NoCiError(cfg: Config, w: World) { w.row.lastError.Some? ==> w.row.lastError.value !in cfg.ciErrors }

  /** No CI recovery is under way, and a run that a resume has read stays as the resume read it. */
  predicate PresentOperator(w: World, o: Operator) {
    !Recovering(o) && (AfterReview(o) ==> Settled(w, o.head))
  }

  ghost predicate PresentOperators(w: World) {
    forall id :: id in w.operators ==> PresentOperator(w, w.operators[id])
  }

  ghost predicate PresentInv(cfg: Config, w: World) {
    CoreInv(w) && GateHolds(w) && NoCiError(cfg, w) && PresentOperators(w)
  }

  predicate PresentStep(cfg: Config, w: World, step: Step) {
    step.Advance? && w.pc.BlockWriting? ==> step.env.error !in cfg.ciErrors
  }

  lemma EndKeepsSettled(w: World, env: Env, head: Sha)
    requires Core(w) && Settled(w, head)
    ensures Settled(EndSteps(w, env), head)
  {
  }

  lemma ControllerKeepsSettled(cfg: Config, w: World, env: Env, head: Sha)
    requires Core(w) && Settled(w, head)
    ensures Settled(Controller(cfg, w, env), head)
  {
    EndKeepsSettled(w, env, head);
    hide CiSteps, EndSteps, CleanOn, ValidateAndCommit, ValidateRecovered, WorkerMayStart;
  }

  lemma ControllerErrors(cfg: Config, w: World, env: Env)
    ensures Controller(cfg, w, env).row.lastError in {w.row.lastError, None} || (w.pc.BlockWriting? && Controller(cfg, w, env).row.lastError == Some(env.error))
  {
    hide ValidateAndCommit, ValidateRecovered, WorkerMayStart, Judge, CleanOn;
  }

  lemma SettledSeesLittle(w: World, w': World)
    requires w'.pc == w.pc && w'.row.head == w.row.head && w'.row.reviewedHead == w.row.reviewedHead
    requires w.ciPassed <= w'.ciPassed && w'.approved == w.approved
    requires w'.row.phase in {w.row.phase, StoppedRun, OwnerMerged}
    ensures forall head :: Settled(w, head) ==> Settled(w', head)
  {
  }

  lemma PresentCommandWrites(cfg: Config, w: World, id: nat, env: Env, merged: Option<Sha>)
    requires id in w.operators && !Recovering(w.operators[id]) && NoCiError(cfg, w)
    ensures var w', o := OperatorStep(cfg, w, id, env, merged), w.operators[id];
      && w'.row.reviewedHead == w.row.reviewedHead && w'.row.lastError == w.row.lastError
      && w'.ciPassed == w.ciPassed && w'.approved == w.approved
      && w'.row.phase in {w.row.phase, StoppedRun, OwnerMerged}
      && id in w'.operators && !Recovering(w'.operators[id])
      && (AfterReview(w'.operators[id]) ==>
            || (AfterReview(o) && o.head == w'.operators[id].head)
            || (w.row.phase == ReadyForOwner && w.row.head == Some(w'.operators[id].head)))
  {
    hide Judge, CleanOn;
  }

  lemma PresentCommand(cfg: Config, w: World, id: nat, env: Env, merged: Option<Sha>)
    requires Core(w) && NoCiError(cfg, w) && id in w.operators && PresentOperator(w, w.operators[id])
    ensures var w' := OperatorStep(cfg, w, id, env, merged);
      && NoCiError(cfg, w') && id in w'.operators && w'.operators == w.operators[id := w'.operators[id]]
      && PresentOperator(w', w'.operators[id])
      && forall head :: Settled(w, head) ==> Settled(w', head)
  {
    CommandFrame(cfg, w, id, env, merged);
    PresentCommandWrites(cfg, w, id, env, merged);
    if w.row.phase == ReadyForOwner && w.row.head.Some? {
      ReadyIsSettled(w);
    }
    hide OperatorStep, Core, Settled, Recovering, OperatorWrites;
    SettledSeesLittle(w, OperatorStep(cfg, w, id, env, merged));
  }

  lemma ReadyIsSettled(w: World)
    requires Core(w) && w.row.phase == ReadyForOwner && w.row.head.Some?
    ensures Settled(w, w.row.head.value)
  {
  }

  lemma PresentIsNotBlind(cfg: Config, w: World, step: Step)
    requires PresentInv(cfg, w)
    ensures !BlindResume(w, step)
  {
    if step.Operate? && step.id in w.operators {
      assert PresentOperator(w, w.operators[step.id]);
    }
    hide GateHolds, CoreInv;
  }

  lemma PresentAdvance(cfg: Config, w: World, env: Env)
    requires Core(w) && NoCiError(cfg, w) && PresentOperators(w) && PresentStep(cfg, w, Advance(env))
    ensures var w' := Controller(cfg, w, env); NoCiError(cfg, w') && PresentOperators(w')
  {
    var w' := Controller(cfg, w, env);
    ControllerKeeps(cfg, w, env);
    ControllerErrors(cfg, w, env);
    hide Controller, Core, GateHolds, Settled;
    forall id | id in w'.operators ensures PresentOperator(w', w'.operators[id]) {
      assert PresentOperator(w, w.operators[id]);
      if AfterReview(w.operators[id]) {
        ControllerKeepsSettled(cfg, w, env, w.operators[id].head);
      }
    }
  }

  lemma PresentOperate(cfg: Config, w: World, id: nat, env: Env, merged: Option<Sha>)
    requires Core(w) && NoCiError(cfg, w) && PresentOperators(w) && id in w.operators
    ensures var w' := OperatorStep(cfg, w, id, env, merged); NoCiError(cfg, w') && PresentOperators(w')
  {
    assert PresentOperator(w, w.operators[id]);
    hide OperatorStep, Core, Settled, NoCiError;
    PresentCommand(cfg, w, id, env, merged);
  }

  lemma PresentOther(cfg: Config, w: World, step: Step)
    requires NoCiError(cfg, w) && PresentOperators(w) && !step.Advance? && !step.Operate?
    ensures NoCiError(cfg, Do(cfg, w, step)) && PresentOperators(Do(cfg, w, step))
  {
    OtherStepsKeepSettled(cfg, w, step);
    hide Settled;
    var w' := Do(cfg, w, step);
    forall id | id in w'.operators ensures PresentOperator(w', w'.operators[id]) {
      assert id in w.operators ==> PresentOperator(w, w.operators[id]);
    }
  }

  lemma PresentStepKeeps(cfg: Config, w: World, step: Step)
    requires PresentInv(cfg, w) && PresentStep(cfg, w, step)
    ensures PresentInv(cfg, Do(cfg, w, step))
  {
    StepKeeps(cfg, w, step);
    PresentIsNotBlind(cfg, w, step);
    hide Controller, OperatorStep, Core, GateHolds, PresentOperator, NoCiError, OperatorHolds, BlindResume;
    if step.Advance? {
      PresentAdvance(cfg, w, step.env);
    } else if step.Operate? {
      if step.id in w.operators {
        PresentOperate(cfg, w, step.id, step.env, step.merged);
      }
    } else {
      PresentOther(cfg, w, step);
    }
  }

  lemma OtherStepsKeepSettled(cfg: Config, w: World, step: Step)
    requires !step.Advance? && !step.Operate?
    ensures var w' := Do(cfg, w, step); forall head :: Settled(w, head) ==> Settled(w', head)
  {
  }

  lemma {:induction false} EveryPresentRunHolds(cfg: Config, schedule: seq<Step>)
    requires PresentErrors(cfg, schedule)
    ensures PresentInv(cfg, Run(cfg, schedule))
  {
    if schedule == [] {
      StartHolds(cfg, NEW_RUN);
    } else {
      var front := schedule[..|schedule| - 1];
      PresentFront(cfg, schedule);
      EveryPresentRunHolds(cfg, front);
      PresentStepKeeps(cfg, Run(cfg, front), schedule[|schedule| - 1]);
    }
  }

  lemma PresentFront(cfg: Config, schedule: seq<Step>)
    requires schedule != [] && PresentErrors(cfg, schedule)
    ensures PresentErrors(cfg, schedule[..|schedule| - 1])
    ensures PresentStep(cfg, Run(cfg, schedule[..|schedule| - 1]), schedule[|schedule| - 1])
  {
    hide Run;
    PresentPrefix(cfg, schedule, |schedule| - 1);
  }

  /** In such a run no resume ever writes blindly, however stale it is. */
  lemma PresentRunsAreNeverBlind(cfg: Config, schedule: seq<Step>)
    requires PresentErrors(cfg, schedule)
    ensures NeverBlind(cfg, NEW_RUN, schedule)
  {
    forall i | 0 <= i < |schedule| ensures !BlindResume(RunFrom(cfg, NEW_RUN, schedule[..i]), schedule[i]) {
      PresentPrefix(cfg, schedule, i);
      EveryPresentRunHolds(cfg, schedule[..i]);
      PresentIsNotBlind(cfg, Run(cfg, schedule[..i]), schedule[i]);
      RunIsFromNew(cfg, schedule[..i]);
    }
  }

  lemma PresentPrefix(cfg: Config, schedule: seq<Step>, n: nat)
    requires n <= |schedule| && PresentErrors(cfg, schedule)
    ensures PresentErrors(cfg, schedule[..n])
  {
    hide Run;
    var prefix := schedule[..n];
    forall i | 0 <= i < n && prefix[i].Advance? && Run(cfg, prefix[..i]).pc.BlockWriting? ensures prefix[i].env.error !in cfg.ciErrors {
      assert prefix[..i] == schedule[..i];
    }
  }

  /** In every reachable state of a run that the loop starts, after a crash at any point, with any HEAD
      moves, edits, results and operator commands, however stale: a run in READY_FOR_OWNER, OWNER_MERGED
      or COMPLETED has its reviewed head equal to its head, a PASS review of that head, and CI success of
      all required checks for it; past READY_FOR_OWNER that head is also the one whose merge was
      confirmed. */
  lemma OwnerGateIsSound(cfg: Config, schedule: seq<Step>)
    requires PresentErrors(cfg, schedule)
    ensures var w := Run(cfg, schedule);
      && (AtGate(w.row.phase) ==> Evidenced(w))
      && (w.row.phase in {OwnerMerged, CompletedRun} ==> w.confirmed == w.row.head)
  {
    EveryPresentRunHolds(cfg, schedule);
  }

  // ---------------------------------------------------------------------------------------------
  // Evidence

  /** What a step of the controller may add to the evidence. */
  predicate Earns(cfg: Config, w: World, w': World, env: Env) {
    && (w'.approved == w.approved
        || (w.pc.SavingReview? && w.pc.review.verdict == Approve && w'.approved == w.approved + {w.pc.head}))
    && (w'.ciPassed == w.ciPassed
        || (w.pc.CiWait? && Judge(cfg.required, w.pc.head, env.poll).Passed? && w'.ciPassed == w.ciPassed + {w.pc.head}))
  }

  lemma WorkerEarns(cfg: Config, w: World, env: Env)
    requires WorkerPc(w.pc)
    ensures Earns(cfg, w, WorkerSteps(cfg, w, env), env)
  {
    hide Attempt, ValidateRecovered, WorkerMayStart;
    if w.tree.Some? && (w.pc.Committing? || w.pc.Recommitting?) {
      AttemptFrame(cfg, w, w.pc.parent, w.pc.result, env);
    }
  }

  lemma CiEarns(cfg: Config, w: World, env: Env)
    requires CiPc(w.pc)
    ensures Earns(cfg, w, CiSteps(cfg, w, env), env)
  {
    hide Judge;
  }

  lemma ReviewEarns(cfg: Config, w: World, env: Env)
    requires ReviewPc(w.pc)
    ensures Earns(cfg, w, ReviewSteps(cfg, w, env), env)
  {
    hide Judge, CleanOn;
  }

  lemma OthersEarn(cfg: Config, w: World, env: Env)
    ensures EndPc(w.pc) ==> Earns(cfg, w, EndSteps(w, env), env)
    ensures w.pc.LoopTop? ==> Earns(cfg, w, Dispatch(cfg, w), env)
  {
    hide Judge;
  }

  lemma ControllerEarns(cfg: Config, w: World, env: Env)
    ensures Earns(cfg, w, Controller(cfg, w, env), env)
  {
    hide WorkerSteps, CiSteps, ReviewSteps, EndSteps, Dispatch, Judge;
    if WorkerPc(w.pc) {
      WorkerEarns(cfg, w, env);
    } else if CiPc(w.pc) {
      CiEarns(cfg, w, env);
    } else if ReviewPc(w.pc) {
      ReviewEarns(cfg, w, env);
    } else {
      OthersEarn(cfg, w, env);
    }
  }

  lemma OperatorsEarn(cfg: Config, w: World, id: nat, env: Env, merged: Option<Sha>)
    requires id in w.operators
    ensures var w' := OperatorStep(cfg, w, id, env, merged);
      && w'.approved == w.approved
      && (w'.ciPassed != w.ciPassed ==>
            w.operators[id].RecoverWaiting? && Judge(cfg.required, w.operators[id].head, env.poll).Passed?
            && w'.ciPassed == w.ciPassed + {w.operators[id].head})
  {
    hide Judge;
  }

  /** What counts as evidence, over every schedule from any start: a head is approved only by saving a
      PASS review of that very head, and passes CI only by a poll that was judged a pass for it. */
  lemma EvidenceIsEarned(cfg: Config, start: World, schedule: seq<Step>, step: Step, head: Sha)
    requires Start(cfg, start)
    ensures var w := RunFrom(cfg, start, schedule); var w' := Do(cfg, w, step);
      && (head in w'.approved && head !in w.approved ==>
            step.Advance? && w.pc.SavingReview? && w.pc.review == ReviewResult(Approve, head) && w.row.head == Some(head))
      && (head in w'.ciPassed && head !in w.ciPassed ==>
            || (step.Advance? && w.pc == CiWait(head) && Judge(cfg.required, head, step.env.poll).Passed?)
            || (step.Operate? && step.id in w.operators && w.operators[step.id] == RecoverWaiting(head)
                && Judge(cfg.required, head, step.env.poll).Passed?))
  {
    EveryRunKeepsCore(cfg, start, schedule);
    hide RunFrom, Do, Judge, PlaceCore;
    EarnedByStep(cfg, RunFrom(cfg, start, schedule), step, head);
  }

  lemma EarnedByStep(cfg: Config, w: World, step: Step, head: Sha)
    requires LocalsHold(w)
    ensures var w' := Do(cfg, w, step);
      && (head in w'.approved && head !in w.approved ==>
            step.Advance? && w.pc.SavingReview? && w.pc.review == ReviewResult(Approve, head) && w.row.head == Some(head))
      && (head in w'.ciPassed && head !in w.ciPassed ==>
            || (step.Advance? && w.pc == CiWait(head) && Judge(cfg.required, head, step.env.poll).Passed?)
            || (step.Operate? && step.id in w.operators && w.operators[step.id] == RecoverWaiting(head)
                && Judge(cfg.required, head, step.env.poll).Passed?))
  {
    hide Judge, Controller, OperatorStep;
    if step.Advance? {
      ControllerEarns(cfg, w, step.env);
    } else if step.Operate? && step.id in w.operators {
      hide LocalsHold;
      OperatorsEarn(cfg, w, step.id, step.env, step.merged);
    }
  }

  /** A resume whose run has left the owner gate since the command read it. */
  predicate StaleResume(w: World, step: Step) {
    && step.Operate? && step.id in w.operators && w.operators[step.id].ResumeMoving?
    && w.row.phase !in {ReadyForOwner, OwnerMerged}
  }

  /** Why staleness matters: from any run ready for its owner, a stop that lands between a resume's read
      and its last write is undone; the STOPPED run is OWNER_MERGED again. */
  lemma StaleResumeReopensStoppedRun(cfg: Config, w: World, resume: nat, stop: nat, env: Env, merged: Sha)
    requires w.row.phase == ReadyForOwner && w.row.pr.Some? && w.row.head.Some? && w.row.reviewedHead == w.row.head
    requires resume !in w.operators && stop !in w.operators && resume != stop
    ensures var w1 := Do(cfg, Do(cfg, w, Command(resume, ResumeReading)), Operate(resume, env, None));
      var w2 := Do(cfg, w1, Operate(resume, env, Some(merged)));
      var w3 := Do(cfg, Do(cfg, w2, Command(stop, StopReading)), Operate(stop, env, None));
      var w4 := Do(cfg, w3, Operate(stop, env, None));
      var w5 := Do(cfg, w4, Operate(resume, env, None));
      && w4.row.phase == StoppedRun && w4.operators[stop] == Finished
      && StaleResume(w4, Operate(resume, env, None))
      && w5.row.phase == OwnerMerged
  {
    ResumeReads(cfg, w, resume, env, merged);
    var w1 := Do(cfg, Do(cfg, w, Command(resume, ResumeReading)), Operate(resume, env, None));
    var w2 := Do(cfg, w1, Operate(resume, env, Some(merged)));
    StopRuns(cfg, w2, stop, env);
    hide Controller, Judge, CleanOn;
  }

  lemma ResumeReads(cfg: Config, w: World, id: nat, env: Env, merged: Sha)
    requires w.row.phase == ReadyForOwner && w.row.pr.Some? && w.row.head.Some? && w.row.reviewedHead == w.row.head
    requires id !in w.operators
    ensures var w1 := Do(cfg, Do(cfg, w, Command(id, ResumeReading)), Operate(id, env, None));
      var w2 := Do(cfg, w1, Operate(id, env, Some(merged)));
      w2.row.phase == ReadyForOwner && w2.operators == w.operators[id := ResumeMoving(w.row.head.value)]
  {
    hide Controller, Judge, CleanOn;
  }

  lemma StopRuns(cfg: Config, w: World, id: nat, env: Env)
    requires w.row.phase == ReadyForOwner && id !in w.operators
    ensures var w3 := Do(cfg, Do(cfg, w, Command(id, StopReading)), Operate(id, env, None));
      var w4 := Do(cfg, w3, Operate(id, env, None));
      w4.row.phase == StoppedRun && w4.operators == w.operators[id := Finished]
  {
    hide Controller, Judge, CleanOn;
  }
}
