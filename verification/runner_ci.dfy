/** `GitHubClient.wait_for_ci`: what the polling loop accepts as evidence for one exact HEAD. */
module RunnerCi {
  import opened Common
  import opened RunnerModels

  datatype CheckState = Success | Skipped | Queued | InProgress | Waiting | PendingCheck | Concluded(name: Text)

  /** A workflow run as one `run view` shows it; `jobs` pairs a name with its conclusion, or its status
      while it has none. */
  datatype RunDetail = RunDetail(head: Sha, attempt: int, completed: bool, succeeded: bool, jobs: seq<(Text, CheckState)>)

  datatype RunKey = RunKey(id: nat, attempt: int)

  /** Everything one iteration reads: the newest exact-HEAD run, if any, with its identity if it is well
      formed, its detail, and the same two reads again before the answer is trusted. */
  datatype Poll = Poll(
    control: DesiredState,
    newest: Option<Option<RunKey>>,
    detail: Option<RunDetail>,
    recheckedControl: DesiredState,
    newestAgain: Option<Option<RunKey>>,
    detailAgain: Option<RunDetail>,
    sleepControl: DesiredState)

  datatype Verdict =
    | Again
    | Passed(run: nat)
    | FailedChecks(run: nat, failed: seq<Text>)
    | PausedWait
    | StoppedWait
    | TimedOut(seenRun: bool)

  /** `_job_checks`: a later job of the same name wins. */
  function JobChecks(jobs: seq<(Text, CheckState)>): map<Text, CheckState> {
    if jobs == [] then map[]
    else JobChecks(jobs[..|jobs| - 1])[jobs[|jobs| - 1].0 := jobs[|jobs| - 1].1]
  }

  predicate Failing(s: CheckState) {
    s !in {Success, Queued, InProgress, Waiting, PendingCheck}
  }

  /** `_failed_required_checks`, in task order. */
  function FailedRequired(required: seq<Text>, checks: map<Text, CheckState>): (r: seq<Text>)
    ensures forall name :: name in r <==> name in required && name in checks && Failing(checks[name])
  {
    if required == [] then []
    else
      var front, last := required[..|required| - 1], required[|required| - 1];
      FailedRequired(front, checks) + (if last in checks && Failing(checks[last]) then [last] else [])
  }

  predicate AllSucceeded(required: seq<Text>, checks: map<Text, CheckState>) {
    forall name :: name in required ==> name in checks && checks[name] == Success
  }

  /** The detail is about this HEAD and this attempt. */
  predicate Exact(head: Sha, key: RunKey, detail: Option<RunDetail>) {
    detail.Some? && detail.value.head == head && detail.value.attempt == key.attempt
  }

  /** What one iteration concludes, before it sleeps. */
  function Judge(required: seq<Text>, head: Sha, p: Poll): Verdict {
    if p.control == Pause then PausedWait
    else if p.control == Stop then StoppedWait
    else if p.newest.None? || p.newest.value.None? then Again
    else
      var key := p.newest.value.value;
      if !Exact(head, key, p.detail) then Again
      else
        var checks := JobChecks(p.detail.value.jobs);
        var failed := FailedRequired(required, checks);
        var succeeded := p.detail.value.completed && p.detail.value.succeeded && AllSucceeded(required, checks);
        if !p.detail.value.completed || (failed == [] && !succeeded) then Again
        else if p.recheckedControl == Pause then PausedWait
        else if p.recheckedControl == Stop then StoppedWait
        else if p.newestAgain != Some(Some(key)) then Again
        else if !Exact(head, key, p.detailAgain) || !p.detailAgain.value.completed then Again
        else
          var checksAgain := JobChecks(p.detailAgain.value.jobs);
          var failedAgain := FailedRequired(required, checksAgain);
          if failedAgain != [] then
            if failed == [] then Again else FailedChecks(key.id, failedAgain)
          else if p.detailAgain.value.succeeded && AllSucceeded(required, checksAgain) then Passed(key.id)
          else Again
  }

  /** The owner's control while the loop sleeps. */
  function Slept(p: Poll): Verdict {
    match p.sleepControl
    case Pause => PausedWait
    case Stop => StoppedWait
    case KeepRunning => Again
  }

  function Iteration(required: seq<Text>, head: Sha, p: Poll): Verdict {
    if Judge(required, head, p) != Again then Judge(required, head, p) else Slept(p)
  }

  predicate SawRun(polls: seq<Poll>) {
    exists i :: 0 <= i < |polls| && polls[i].newest.Some?
  }

  lemma PollsNeverTimeOut(required: seq<Text>, head: Sha, p: Poll)
    ensures !Judge(required, head, p).TimedOut? && !Slept(p).TimedOut?
  {
  }

  function Doublings(k: nat): (r: nat) { if k == 0 then 1 else 2 * Doublings(k - 1) }

  /** The delay after `k` sleeps: doubled each time, up to the limit. */
  function DelayAfter(initial: nat, limit: nat, k: nat): nat {
    if initial * Doublings(k) <= limit then initial * Doublings(k) else limit
  }

  lemma DelayDoubles(initial: nat, limit: nat, k: nat)
    requires initial <= limit
    ensures var d := DelayAfter(initial, limit, k);
      DelayAfter(initial, limit, k + 1) == if d * 2 <= limit then d * 2 else limit
  {
    assert initial * Doublings(k + 1) == 2 * (initial * Doublings(k));
  }

  /** The polling loop; `polls` ends where the deadline does. */
  method WaitForCi(required: seq<Text>, head: Sha, polls: seq<Poll>, initialDelay: nat, maxDelay: nat)
    returns (verdict: Verdict, delay: nat)
    requires initialDelay <= maxDelay
    ensures verdict != Again
    ensures verdict.TimedOut? ==>
      && (forall i :: 0 <= i < |polls| ==> Iteration(required, head, polls[i]) == Again)
      && verdict.seenRun == SawRun(polls) && delay == DelayAfter(initialDelay, maxDelay, |polls|)
    ensures !verdict.TimedOut? ==>
      exists i :: 0 <= i < |polls| && Iteration(required, head, polls[i]) == verdict
                  && delay == DelayAfter(initialDelay, maxDelay, i)
                  && forall j :: 0 <= j < i ==> Iteration(required, head, polls[j]) == Again
  {
    hide Judge, Slept;
    delay := initialDelay;
    var seenRun := false;
    var i := 0;
    while i < |polls|
      invariant 0 <= i <= |polls| && delay == DelayAfter(initialDelay, maxDelay, i)
      invariant forall j :: 0 <= j < i ==> Iteration(required, head, polls[j]) == Again
      invariant seenRun == SawRun(polls[..i])
    {
      var p := polls[i];
      PollsNeverTimeOut(required, head, p);
      assert polls[..i + 1] == polls[..i] + [p];
      verdict := Judge(required, head, p);
      if verdict != Again {
        assert Iteration(required, head, polls[i]) == verdict;
        return;
      }
      if p.newest.Some? {
        seenRun := true;
        assert polls[..i + 1][i].newest.Some?;
      } else if seenRun {
        var j :| 0 <= j < i && polls[..i][j].newest.Some?;
        assert polls[..i + 1][j].newest.Some?;
      }
      verdict := Slept(p);
      if verdict != Again {
        assert Iteration(required, head, polls[i]) == verdict;
        return;
      }
      DelayDoubles(initialDelay, maxDelay, i);
      delay := if delay * 2 <= maxDelay then delay * 2 else maxDelay;
      i := i + 1;
    }
    assert polls[..i] == polls;
    return TimedOut(seenRun), delay;
  }

  // ---------------------------------------------------------------------------------------------
  // What the answers say of the job lists

  /** Job `i` is the last one of its name. */
  predicate LastJob(jobs: seq<(Text, CheckState)>, i: int, name: Text) {
    && 0 <= i < |jobs| && jobs[i].0 == name
    && forall j :: i < j < |jobs| ==> jobs[j].0 != name
  }

  /** The last job of this name succeeded. */
  ghost predicate Passing(jobs: seq<(Text, CheckState)>, name: Text) {
    exists i :: LastJob(jobs, i, name) && jobs[i].1 == Success
  }

  /** The last job of this name ended otherwise; a skipped job is one of these. */
  ghost predicate Broken(jobs: seq<(Text, CheckState)>, name: Text) {
    exists i :: LastJob(jobs, i, name) && jobs[i].1 !in {Success, Queued, InProgress, Waiting, PendingCheck}
  }

  ghost predicate AllPassing(required: seq<Text>, jobs: seq<(Text, CheckState)>) {
    forall name :: name in required ==> Passing(jobs, name)
  }

  ghost predicate SomeBroken(required: seq<Text>, jobs: seq<(Text, CheckState)>) {
    exists name :: name in required && Broken(jobs, name)
  }

  /** Adding a job makes it the last of its name and leaves the other names alone. */
  lemma LastJobAdds(front: seq<(Text, CheckState)>, last: (Text, CheckState), i: int, name: Text)
    ensures LastJob(front + [last], i, name) <==>
            if last.0 == name then i == |front| else LastJob(front, i, name)
  {
    var jobs := front + [last];
    assert jobs[|front|] == last;
    assert forall j :: 0 <= j < |front| ==> jobs[j] == front[j];
    if LastJob(jobs, i, name) && last.0 != name {
      assert forall j :: i < j < |front| ==> front[j] == jobs[j] && jobs[j].0 != name;
    }
  }

  lemma {:induction false} ChecksAreLastJobs(jobs: seq<(Text, CheckState)>, name: Text)
    ensures name in JobChecks(jobs) <==> exists i :: LastJob(jobs, i, name)
    ensures forall i :: LastJob(jobs, i, name) ==> name in JobChecks(jobs) && JobChecks(jobs)[name] == jobs[i].1
  {
    if jobs != [] {
      var front, last := jobs[..|jobs| - 1], jobs[|jobs| - 1];
      assert jobs == front + [last];
      ChecksAreLastJobs(front, name);
      forall i: int ensures LastJob(jobs, i, name) <==> if last.0 == name then i == |front| else LastJob(front, i, name) {
        LastJobAdds(front, last, i, name);
      }
      hide LastJob;
      assert forall i :: 0 <= i < |front| ==> front[i] == jobs[i];
      if last.0 == name {
        assert LastJob(jobs, |front|, name);
      }
      assert forall i :: LastJob(front, i, name) && last.0 != name ==> LastJob(jobs, i, name);
      assert forall i :: LastJob(jobs, i, name) && last.0 != name ==> LastJob(front, i, name);
    }
  }

  lemma ChecksShowJobs(required: seq<Text>, jobs: seq<(Text, CheckState)>)
    ensures AllSucceeded(required, JobChecks(jobs)) <==> AllPassing(required, jobs)
    ensures FailedRequired(required, JobChecks(jobs)) != [] <==> SomeBroken(required, jobs)
  {
    forall name ensures Passing(jobs, name) <==> name in JobChecks(jobs) && JobChecks(jobs)[name] == Success
      ensures Broken(jobs, name) <==> name in JobChecks(jobs) && Failing(JobChecks(jobs)[name])
    {
      BrokenInChecks(jobs, name);
    }
    hide Passing, Broken, Failing, JobChecks;
    var failed := FailedRequired(required, JobChecks(jobs));
    if failed != [] {
      assert failed[0] in failed;
    }
  }

  /** `failed` lists the required names whose last job failed, in task order; `at` says where in the
      task each one stands. */
  ghost predicate ListedAt(failed: seq<Text>, at: seq<nat>, required: seq<Text>, jobs: seq<(Text, CheckState)>) {
    && |at| == |failed|
    && (forall i, j :: 0 <= i < j < |at| ==> at[i] < at[j])
    && (forall i :: 0 <= i < |at| ==> at[i] < |required| && failed[i] == required[at[i]])
    && (forall k :: 0 <= k < |required| ==> (k in at <==> Broken(jobs, required[k])))
  }

  lemma ListedSkips(failed: seq<Text>, at: seq<nat>, front: seq<Text>, last: Text, jobs: seq<(Text, CheckState)>)
    requires ListedAt(failed, at, front, jobs) && !Broken(jobs, last)
    ensures ListedAt(failed, at, front + [last], jobs)
  {
    hide Broken;
  }

  lemma ListedAdds(failed: seq<Text>, at: seq<nat>, front: seq<Text>, last: Text, jobs: seq<(Text, CheckState)>)
    requires ListedAt(failed, at, front, jobs) && Broken(jobs, last)
    ensures ListedAt(failed + [last], at + [|front|], front + [last], jobs)
  {
    hide Broken;
    assert |front| in at + [|front|];
  }

  lemma {:induction false} FailedAreListed(required: seq<Text>, jobs: seq<(Text, CheckState)>) returns (at: seq<nat>)
    ensures ListedAt(FailedRequired(required, JobChecks(jobs)), at, required, jobs)
  {
    if required == [] {
      at := [];
    } else {
      hide ListedAt, Broken, JobChecks;
      var front, last := required[..|required| - 1], required[|required| - 1];
      BrokenInChecks(jobs, last);
      at := FailedAreListed(front, jobs);
      var failed := FailedRequired(front, JobChecks(jobs));
      assert required == front + [last];
      if Broken(jobs, last) {
        ListedAdds(failed, at, front, last, jobs);
        at := at + [|front|];
      } else {
        ListedSkips(failed, at, front, last, jobs);
        assert failed + [] == failed;
      }
    }
  }

  lemma BrokenInChecks(jobs: seq<(Text, CheckState)>, name: Text)
    ensures Passing(jobs, name) <==> name in JobChecks(jobs) && JobChecks(jobs)[name] == Success
    ensures Broken(jobs, name) <==> name in JobChecks(jobs) && Failing(JobChecks(jobs)[name])
  {
    ChecksAreLastJobs(jobs, name);
    hide JobChecks;
    if name in JobChecks(jobs) {
      var i :| LastJob(jobs, i, name);
      hide LastJob;
      assert JobChecks(jobs)[name] == jobs[i].1;
    }
  }

  /** Both reads of the iteration are of one run and attempt, the newest of this very HEAD, completed
      both times, and the owner lets the wait go on. */
  predicate ReadTwice(head: Sha, p: Poll) {
    && p.control == KeepRunning && p.recheckedControl == KeepRunning
    && p.newest == p.newestAgain && p.newest.Some? && p.newest.value.Some?
    && p.detail.Some? && p.detail.value.head == head
    && p.detail.value.attempt == p.newest.value.value.attempt && p.detail.value.completed
    && p.detailAgain.Some? && p.detailAgain.value.head == head
    && p.detailAgain.value.attempt == p.newest.value.value.attempt && p.detailAgain.value.completed
  }

  /** The first read of a run says that it passed, or that a required check failed. */
  ghost predicate Speaks(required: seq<Text>, d: RunDetail) {
    d.completed && (SomeBroken(required, d.jobs) || (d.succeeded && AllPassing(required, d.jobs)))
  }

  /** The first read is made and speaks, so the owner is asked again. */
  ghost predicate AsksAgain(required: seq<Text>, head: Sha, p: Poll) {
    && p.control == KeepRunning && p.newest.Some? && p.newest.value.Some?
    && p.detail.Some? && p.detail.value.head == head && p.detail.value.attempt == p.newest.value.value.attempt
    && Speaks(required, p.detail.value)
  }

  /** Exactly when one iteration passes a HEAD, said of the jobs that were read: on two reads of one run
      of this HEAD, of which the second succeeded with the last job of every required name a success,
      and the first spoke. */
  lemma PassIsExact(required: seq<Text>, head: Sha, p: Poll)
    ensures var answer := Iteration(required, head, p);
      && (answer.Passed? <==>
            && ReadTwice(head, p) && Speaks(required, p.detail.value)
            && p.detailAgain.value.succeeded && AllPassing(required, p.detailAgain.value.jobs))
      && (answer.Passed? ==> answer.run == p.newest.value.value.id)
  {
    ReadsShowJobs(required, p);
    hide FailedRequired, AllSucceeded, JobChecks, AllPassing, SomeBroken;
  }

  lemma FailureShows(required: seq<Text>, head: Sha, p: Poll)
    ensures var answer := Iteration(required, head, p);
      && (answer.FailedChecks? <==>
            && ReadTwice(head, p)
            && SomeBroken(required, p.detail.value.jobs) && SomeBroken(required, p.detailAgain.value.jobs))
      && (answer.FailedChecks? ==>
            && answer.run == p.newest.value.value.id
            && answer.failed == FailedRequired(required, JobChecks(p.detailAgain.value.jobs)))
  {
    ReadsShowJobs(required, p);
    hide FailedRequired, AllSucceeded, JobChecks, AllPassing, SomeBroken;
  }

  /** Exactly when one iteration fails a HEAD: on two such reads that each show a required name whose
      last job failed. It then lists all such names of the second read. */
  lemma FailureIsExact(required: seq<Text>, head: Sha, p: Poll) returns (at: seq<nat>)
    ensures var answer := Iteration(required, head, p);
      && (answer.FailedChecks? <==>
            && ReadTwice(head, p)
            && SomeBroken(required, p.detail.value.jobs) && SomeBroken(required, p.detailAgain.value.jobs))
      && (answer.FailedChecks? ==>
            && answer.run == p.newest.value.value.id
            && ListedAt(answer.failed, at, required, p.detailAgain.value.jobs))
  {
    hide Iteration, SomeBroken, ListedAt, FailedRequired, JobChecks;
    FailureShows(required, head, p);
    at := [];
    if p.detailAgain.Some? { at := FailedAreListed(required, p.detailAgain.value.jobs); }
  }

  lemma ReadsShowJobs(required: seq<Text>, p: Poll)
    ensures p.detail.Some? ==>
      && (AllSucceeded(required, JobChecks(p.detail.value.jobs)) <==> AllPassing(required, p.detail.value.jobs))
      && (FailedRequired(required, JobChecks(p.detail.value.jobs)) != [] <==> SomeBroken(required, p.detail.value.jobs))
    ensures p.detailAgain.Some? ==>
      && (AllSucceeded(required, JobChecks(p.detailAgain.value.jobs)) <==> AllPassing(required, p.detailAgain.value.jobs))
      && (FailedRequired(required, JobChecks(p.detailAgain.value.jobs)) != [] <==> SomeBroken(required, p.detailAgain.value.jobs))
      && (SomeBroken(required, p.detailAgain.value.jobs) ==> !AllPassing(required, p.detailAgain.value.jobs))
  {
    if p.detail.Some? { ChecksShowJobs(required, p.detail.value.jobs); }
    if p.detailAgain.Some? {
      ChecksShowJobs(required, p.detailAgain.value.jobs);
      BrokenIsNotPassing(required, p.detailAgain.value.jobs);
    }
  }

  /** The last job of a name is one job. */
  lemma LastJobIsOne(jobs: seq<(Text, CheckState)>, i: int, j: int, name: Text)
    requires LastJob(jobs, i, name) && LastJob(jobs, j, name)
    ensures i == j
  {
  }

  lemma BrokenIsNotPassing(required: seq<Text>, jobs: seq<(Text, CheckState)>)
    ensures SomeBroken(required, jobs) ==> !AllPassing(required, jobs)
  {
    forall name | Broken(jobs, name) ensures !Passing(jobs, name) {
      var i :| LastJob(jobs, i, name) && jobs[i].1 != Success;
      forall j | LastJob(jobs, j, name) ensures i == j {
        LastJobIsOne(jobs, i, j, name);
      }
    }
    hide Broken, Passing;
  }

  /** Exactly when the owner ends the wait: by the first control that is read and is not to go on. The
      second is read only after a first read that spoke, the third only when there is no verdict. */
  lemma OwnerEndsTheWait(required: seq<Text>, head: Sha, p: Poll)
    ensures var answer := Iteration(required, head, p);
      var ended := (if p.control != KeepRunning then p.control
                    else if AsksAgain(required, head, p) && p.recheckedControl != KeepRunning then p.recheckedControl
                    else if answer.Passed? || answer.FailedChecks? then KeepRunning
                    else p.sleepControl);
      && (answer == PausedWait <==> ended == Pause)
      && (answer == StoppedWait <==> ended == Stop)
  {
    ReadsShowJobs(required, p);
    hide FailedRequired, AllSucceeded, JobChecks, AllPassing, SomeBroken;
  }
}
