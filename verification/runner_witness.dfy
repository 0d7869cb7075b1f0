/** A schedule that takes a legacy run past the owner gate without a reviewed head: two recoveries from
    the failed CI run that blocked it and two resumes of the same owner-ready run, the last of each stale
    when it writes. */
module RunnerWitness {
  import opened Common
  import opened RunnerModels
  import opened RunnerGit
  import opened RunnerCi
  import opened RunnerMachine
  import opened RunnerPlaces
  import opened RunnerGate

  /** Any task with an invocation left, any error text of a failed CI run, any other one for a failed
      delivery, any passing CI poll. */
  datatype Setting = Setting(cfg: Config, head: Sha, error: Text, failure: Text, poll: Poll, pr: nat, merged: Sha)
  {
    function CiRun(): nat { if Judge(cfg.required, head, poll).Passed? then Judge(cfg.required, head, poll).run else 0 }

    predicate Valid() {
      && cfg.maxInvocations >= 1
      && error in cfg.ciErrors && failure !in cfg.ciErrors
      && Judge(cfg.required, head, poll).Passed?
    }

    function Seen(): Env { Env(GitEnv(true, true, {}, 0), None, Some(ReviewResult(Approve, head)), poll, pr, failure) }

    /** The legacy row: blocked on the failed CI run of its head. */
    function CiBlocked(): World {
      NEW_RUN.(row := NEW_WORK.(phase := BlockedRun, head := Some(head), pr := Some(pr), lastError := Some(error)),
               tree := Some(Tree(cfg.task.branch, head, {}, {})))
    }

    // What the stages of the schedule reach

    function Recovering(): World {
      OperatorAt(CiBlocked().(ciPassed := {head}), 1, RecoverPassed(head, CiRun()))
    }

    function UnderReview(): World {
      CiBlocked().(row := CiBlocked().row.(phase := ReviewRunning, ciRun := Some(CiRun()), lastError := None),
                   operators := map[1 := RecoverPassed(head, CiRun()), 2 := Finished],
                   ciPassed := {head})
    }

    function Reviewing(): World {
      UnderReview().(row := UnderReview().row.(invocations := 1, reviewStarted := Some(head)),
                     pc := Pc.Reviewing(head, 0))
    }

    function Passed(): World {
      Reviewing().(row := Reviewing().row.(reviewedHead := Some(head)), approved := {head}, pc := Deciding(head, 0, Approve))
    }

    function Ready(): World {
      UnderReview().(row := UnderReview().row.(phase := ReadyForOwner, invocations := 1, reviewedHead := Some(head)),
                     approved := {head})
    }

    function MergedOnce(): World {
      Ready().(row := Ready().row.(phase := OwnerMerged, mergeSha := Some(merged)),
               operators := Ready().operators[3 := Finished][4 := ResumeMoving(head)], confirmed := Some(head))
    }

    function DeliveryBlocked(): World {
      MergedOnce().(row := MergedOnce().row.(phase := BlockedRun, lastError := Some(failure)))
    }
  }

  /** The loop of the schedule is the present one: it never writes the error of a failed CI run. */
  ghost predicate NoCiErrors(cfg: Config, schedule: seq<Step>) {
    forall i :: 0 <= i < |schedule| && schedule[i].Advance? ==> schedule[i].env.error !in cfg.ciErrors
  }

  ghost predicate Reachable(s: Setting, w: World) {
    exists schedule :: RunFrom(s.cfg, s.CiBlocked(), schedule) == w && NoCiErrors(s.cfg, schedule)
  }

  lemma StepReaches(s: Setting, w: World, step: Step)
    requires s.Valid() && Reachable(s, w) && (step.Advance? ==> step.env == s.Seen())
    ensures Reachable(s, Do(s.cfg, w, step))
  {
    hide Do;
    var schedule :| RunFrom(s.cfg, s.CiBlocked(), schedule) == w && NoCiErrors(s.cfg, schedule);
    assert (schedule + [step])[..|schedule|] == schedule;
    assert RunFrom(s.cfg, s.CiBlocked(), schedule + [step]) == Do(s.cfg, w, step);
  }

  /** The controller's next step leads from one reachable world to another. */
  lemma Goes(s: Setting, w: World, w': World)
    requires s.Valid() && Reachable(s, w) && Controller(s.cfg, w, s.Seen()) == w'
    ensures Reachable(s, w')
  {
    hide Controller, Reachable;
    StepReaches(s, w, Advance(s.Seen()));
  }

  lemma LoopGoes(s: Setting, w: World, w': World)
    requires s.Valid() && Reachable(s, w) && w.pc.LoopTop? && Dispatch(s.cfg, w) == w'
    ensures Reachable(s, w')
  {
    hide Dispatch, Judge, Reachable, EndSteps, WorkerSteps, CiSteps, ReviewSteps;
    Goes(s, w, w');
  }

  lemma ReviewGoes(s: Setting, w: World, w': World)
    requires s.Valid() && Reachable(s, w) && ReviewPc(w.pc) && ReviewSteps(s.cfg, w, s.Seen()) == w'
    ensures Reachable(s, w')
  {
    hide ReviewSteps, Judge, Reachable, Dispatch, WorkerSteps, CiSteps, EndSteps;
    Goes(s, w, w');
  }

  lemma EndGoes(s: Setting, w: World, w': World)
    requires s.Valid() && Reachable(s, w) && EndPc(w.pc) && EndSteps(w, s.Seen()) == w'
    ensures Reachable(s, w')
  {
    hide EndSteps, Judge, Reachable, Dispatch, WorkerSteps, CiSteps, ReviewSteps;
    Goes(s, w, w');
  }

  lemma CommandStarts(s: Setting, w: World, id: nat, o: Operator)
    requires s.Valid() && Reachable(s, w) && id !in w.operators && FirstStep(o)
    ensures Reachable(s, OperatorAt(w, id, o))
  {
    StepReaches(s, w, Command(id, o));
  }

  lemma CommandGoes(s: Setting, w: World, id: nat, w': World)
    requires s.Valid() && Reachable(s, w) && id in w.operators && OperatorStep(s.cfg, w, id, s.Seen(), Some(s.merged)) == w'
    ensures Reachable(s, w')
  {
    hide OperatorStep;
    StepReaches(s, w, Operate(id, s.Seen(), Some(s.merged)));
  }

  lemma ControllerStarts(s: Setting, w: World)
    requires s.Valid() && Reachable(s, w) && w.pc.Idle?
    ensures Reachable(s, At(w, LoopTop))
  {
    StepReaches(s, w, StartController);
  }

  lemma Raises(s: Setting, w: World)
    requires s.Valid() && Reachable(s, w) && !w.pc.Idle?
    ensures Reachable(s, At(w, BlockReading))
  {
    hide Judge, Reachable, Controller, OperatorStep;
    StepReaches(s, w, Raise);
  }

  /** Any exception ends in `_block`. */
  lemma Blocks(s: Setting, w: World)
    requires s.Valid() && Reachable(s, w) && !w.pc.Idle? && !TerminalPhase(w.row.phase)
    ensures Reachable(s, w.(row := w.row.(phase := BlockedRun, lastError := Some(s.failure)), pc := Idle))
  {
    hide Judge, Reachable, Controller, Do;
    Raises(s, w);
    EndGoes(s, At(w, BlockReading), At(w, BlockWriting));
    var w1 := w.(row := w.row.(lastError := Some(s.failure)), pc := BlockMoving);
    EndGoes(s, At(w, BlockWriting), w1);
    EndGoes(s, w1, Moved(w1, BlockedRun, Idle));
  }

  lemma ReachStart(s: Setting)
    ensures Reachable(s, s.CiBlocked())
  {
    assert RunFrom(s.cfg, s.CiBlocked(), []) == s.CiBlocked();
  }

  /** Two recoveries read it. CI has passed meanwhile; the second sends the run to review, the first is
      still about to. */
  lemma ReachFirstRecovery(s: Setting)
    requires s.Valid()
    ensures Reachable(s, s.Recovering())
  {
    hide Controller, Do, Judge;
    ReachStart(s);
    var w0 := s.CiBlocked();
    CommandStarts(s, w0, 1, RecoverReading);
    var w1 := OperatorAt(w0, 1, RecoverReading);
    CommandGoes(s, w1, 1, OperatorAt(w0, 1, RecoverWaiting(s.head)));
    var w2 := s.Recovering();
    CommandGoes(s, OperatorAt(w0, 1, RecoverWaiting(s.head)), 1, w2);
  }

  lemma ReachUnderReview(s: Setting)
    requires s.Valid()
    ensures Reachable(s, s.UnderReview())
  {
    hide Controller, Do, Judge;
    ReachFirstRecovery(s);
    var w2, passed := s.Recovering(), RecoverPassed(s.head, s.CiRun());
    CommandStarts(s, w2, 2, RecoverReading);
    CommandGoes(s, OperatorAt(w2, 2, RecoverReading), 2, OperatorAt(w2, 2, RecoverWaiting(s.head)));
    CommandGoes(s, OperatorAt(w2, 2, RecoverWaiting(s.head)), 2, OperatorAt(w2, 2, passed));
    CommandGoes(s, OperatorAt(w2, 2, passed), 2, s.UnderReview());
  }

  /** A reviewer is launched. */
  lemma ReachReviewing(s: Setting)
    requires s.Valid()
    ensures Reachable(s, s.Reviewing())
  {
    hide Controller, Do, Judge;
    ReachUnderReview(s);
    var w0, h := s.UnderReview(), s.head;
    ControllerStarts(s, w0);
    LoopGoes(s, At(w0, LoopTop), At(w0, ReviewCheck));
    ReviewGoes(s, At(w0, ReviewCheck), At(w0, ReviewBudget(h, 0)));
    ReviewGoes(s, At(w0, ReviewBudget(h, 0)), At(w0, ReviewBooking(h, 0, 1)));
    ReviewGoes(s, At(w0, ReviewBooking(h, 0, 1)), s.Reviewing());
  }

  /** The review passes. */
  lemma ReachVerdict(s: Setting)
    requires s.Valid()
    ensures Reachable(s, s.Passed())
  {
    hide Controller, Do, Judge;
    ReachReviewing(s);
    var w1, h, review := s.Reviewing(), s.head, ReviewResult(Approve, s.head);
    ReviewGoes(s, w1, At(w1, Finishing(h, 0, review)));
    ReviewGoes(s, At(w1, Finishing(h, 0, review)), At(w1, SavingReview(h, 0, review)));
    ReviewGoes(s, At(w1, SavingReview(h, 0, review)), s.Passed());
  }

  lemma ReachReady(s: Setting)
    requires s.Valid()
    ensures Reachable(s, s.Ready())
  {
    hide Controller, Do, Judge;
    ReachVerdict(s);
    var w2, h := s.Passed(), s.head;
    ReviewGoes(s, w2, At(w2, ToReady(h)));
    var w3 := Moved(w2, ReadyForOwner, ClearingReview);
    ReviewGoes(s, At(w2, ToReady(h)), w3);
    ReviewGoes(s, w3, At(s.Ready(), LoopTop));
    LoopGoes(s, At(s.Ready(), LoopTop), s.Ready());
  }

  /** Two resumes read it and confirm the merge; the first finishes. */
  lemma ReachMergedOnce(s: Setting)
    requires s.Valid()
    ensures Reachable(s, s.MergedOnce())
  {
    hide Controller, Do, Judge;
    ReachReady(s);
    var w0, merging := s.Ready(), ResumeMerging(s.head);
    CommandStarts(s, w0, 3, ResumeReading);
    CommandGoes(s, OperatorAt(w0, 3, ResumeReading), 3, OperatorAt(w0, 3, merging));
    var w1 := OperatorAt(w0, 3, merging);
    CommandStarts(s, w1, 4, ResumeReading);
    CommandGoes(s, OperatorAt(w1, 4, ResumeReading), 4, OperatorAt(w1, 4, merging));
    var w2 := OperatorAt(w1, 4, merging);
    var w3 := OperatorAt(w2.(row := w2.row.(mergeSha := Some(s.merged))), 3, ResumeMoving(s.head));
    CommandGoes(s, w2, 3, w3);
    CommandGoes(s, w3, 4, OperatorAt(w3, 4, ResumeMoving(s.head)));
    CommandGoes(s, OperatorAt(w3, 4, ResumeMoving(s.head)), 3, s.MergedOnce());
  }

  /** Delivery fails, and the run is blocked again. */
  lemma ReachDeliveryBlocked(s: Setting)
    requires s.Valid()
    ensures Reachable(s, s.DeliveryBlocked())
  {
    hide Controller, Do, Judge;
    ReachMergedOnce(s);
    var w0 := s.MergedOnce();
    ControllerStarts(s, w0);
    LoopGoes(s, At(w0, LoopTop), At(w0, DeliverCheck(s.head)));
    Blocks(s, At(w0, DeliverCheck(s.head)));
  }

  /** The first recovery now sends it back to review, and the second resume past the owner gate. */
  lemma ReachOwnerMerged(s: Setting) returns (w: World)
    requires s.Valid()
    ensures Reachable(s, w)
    ensures w.row.phase == OwnerMerged && w.row.head == w.confirmed == Some(s.head) && w.row.reviewedHead.None?
  {
    hide Controller, Do, Judge;
    ReachDeliveryBlocked(s);
    var w0 := s.DeliveryBlocked();
    var w1 := OperatorStep(s.cfg, w0, 1, s.Seen(), Some(s.merged));
    CommandGoes(s, w0, 1, w1);
    assert w1.row.phase == ReviewRunning && w1.row.reviewedHead.None? && w1.operators[4] == ResumeMoving(s.head);
    w := OperatorStep(s.cfg, w1, 4, s.Seen(), Some(s.merged));
    CommandGoes(s, w1, 4, w);
  }

  /** So the run is OWNER_MERGED and has no reviewed head. The write was blind: the row no longer showed
      the head as reviewed. */
  lemma LegacyRunPassesGateUnreviewed(s: Setting) returns (schedule: seq<Step>)
    requires s.Valid()
    ensures LegacyBlocked(s.cfg, s.CiBlocked())
    ensures NoCiErrors(s.cfg, schedule)
    ensures var w := RunFrom(s.cfg, s.CiBlocked(), schedule);
      w.row.phase == OwnerMerged && w.row.head == w.confirmed == Some(s.head) && w.row.reviewedHead.None?
  {
    hide Judge, Do;
    var w := ReachOwnerMerged(s);
    schedule :| RunFrom(s.cfg, s.CiBlocked(), schedule) == w && NoCiErrors(s.cfg, schedule);
  }
}
