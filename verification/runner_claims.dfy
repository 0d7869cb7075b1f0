/** Writer claims over every history of store calls. */
module RunnerClaims {
  import opened Common
  import opened RunnerModels
  import opened RunnerStore

  ghost predicate HasClaim(claims: seq<Claim>, run: Text) {
    exists i :: 0 <= i < |claims| && claims[i].run == run
  }

  ghost predicate DistinctRuns(claims: seq<Claim>) {
    forall i, j :: 0 <= i < j < |claims| ==> claims[i].run != claims[j].run
  }

  ghost predicate OneClaimPerRun(db: Db) {
    && DistinctRuns(db.claims)
    && (forall i :: 0 <= i < |db.claims| ==> db.claims[i].run in db.runs)
    && (forall run :: run in db.runs ==> HasClaim(db.claims, run))
  }

  ghost predicate ClaimsMatchRuns(db: Db) {
    && (forall i :: 0 <= i < |db.claims| && db.claims[i].run in db.runs ==>
          var task := db.runs[db.claims[i].run].task;
          db.claims[i].repository == task.repository && db.claims[i].issue == task.issue)
    && (forall run :: run in db.runs ==> db.runs[run].maxWorkers in {1, 2})
  }

  ghost predicate OneActivePerIssue(claims: seq<Claim>) {
    forall i, j :: 0 <= i < j < |claims| && claims[i].active && claims[j].active ==>
      claims[i].repository != claims[j].repository || claims[i].issue != claims[j].issue
  }

  /** At most two claims are active, at most one of them for an issue, and every run has exactly one
      claim row, for its own issue. */
  ghost predicate ClaimsInv(db: Db) {
    && OneClaimPerRun(db)
    && ClaimsMatchRuns(db)
    && OneActivePerIssue(db.claims)
    && CountActive(db.claims) <= 2
  }

  /** Releasing never adds an active claim. */
  lemma {:induction false} ReleaseLowersCount(claims: seq<Claim>, run: Text)
    ensures CountActive(SetActive(claims, run, false)) <= CountActive(claims)
  {
    if claims != [] {
      var front := claims[..|claims| - 1];
      var updated := SetActive(claims, run, false);
      assert updated[..|updated| - 1] == SetActive(front, run, false);
      ReleaseLowersCount(front, run);
    }
  }

  lemma {:induction false} AbsentIsUntouched(claims: seq<Claim>, run: Text, active: bool)
    requires forall i :: 0 <= i < |claims| ==> claims[i].run != run
    ensures SetActive(claims, run, active) == claims
  {
  }

  /** Activating a run with one row adds at most one active claim. */
  lemma {:induction false} ActivateRaisesCountByOne(claims: seq<Claim>, run: Text)
    requires forall i, j :: 0 <= i < j < |claims| ==> claims[i].run != claims[j].run
    ensures CountActive(SetActive(claims, run, true)) <= CountActive(claims) + 1
  {
    if claims != [] {
      var front, last := claims[..|claims| - 1], claims[|claims| - 1];
      var updated := SetActive(claims, run, true);
      assert updated[..|updated| - 1] == SetActive(front, run, true);
      if last.run == run {
        AbsentIsUntouched(front, run, true);
      } else {
        ActivateRaisesCountByOne(front, run);
      }
    }
  }

  lemma SetActiveKeepsHasClaim(claims: seq<Claim>, run: Text, active: bool, other: Text)
    requires HasClaim(claims, other)
    ensures HasClaim(SetActive(claims, run, active), other)
  {
    var i :| 0 <= i < |claims| && claims[i].run == other;
    assert SetActive(claims, run, active)[i].run == other;
  }

  lemma SetActiveKeepsDistinct(claims: seq<Claim>, run: Text, active: bool)
    requires DistinctRuns(claims)
    ensures DistinctRuns(SetActive(claims, run, active))
  {
    var claims' := SetActive(claims, run, active);
    forall i, j | 0 <= i < j < |claims'| ensures claims'[i].run != claims'[j].run {
      assert claims[i].run != claims[j].run;
    }
  }

  /** Changing the active flags of one run leaves the other facts about the rows alone. */
  lemma SetActiveKeepsRows(db: Db, run: Text, active: bool)
    requires OneClaimPerRun(db) && ClaimsMatchRuns(db)
    ensures var db' := db.(claims := SetActive(db.claims, run, active));
      OneClaimPerRun(db') && ClaimsMatchRuns(db')
  {
    hide HasClaim, DistinctRuns;
    SetActiveKeepsDistinct(db.claims, run, active);
    forall other | other in db.runs ensures HasClaim(SetActive(db.claims, run, active), other) {
      SetActiveKeepsHasClaim(db.claims, run, active, other);
    }
  }

  lemma ReleaseKeepsIssues(claims: seq<Claim>, run: Text)
    requires OneActivePerIssue(claims)
    ensures OneActivePerIssue(SetActive(claims, run, false))
  {
    var claims' := SetActive(claims, run, false);
    forall i, j | 0 <= i < j < |claims'| && claims'[i].active && claims'[j].active
      ensures claims'[i].repository != claims'[j].repository || claims'[i].issue != claims'[j].issue
    {
      assert claims[i].active && claims[j].active;
    }
  }

  predicate SameIssue(a: Claim, b: Claim) { a.repository == b.repository && a.issue == b.issue }

  lemma ActivatedPairDiffers(claims: seq<Claim>, run: Text, task: TaskTerms, i: nat, j: nat)
    requires i < j < |claims| && DistinctRuns(claims) && OneActivePerIssue(claims)
    requires !IssueClaimed(claims, task.repository, task.issue)
    requires forall k :: 0 <= k < |claims| && claims[k].run == run ==> claims[k].repository == task.repository && claims[k].issue == task.issue
    requires claims[i].run == run || claims[i].active
    requires claims[j].run == run || claims[j].active
    ensures !SameIssue(claims[i], claims[j])
  {
    assert claims[i].run != claims[j].run;
    hide DistinctRuns;
  }

  /** Activating the only row of a run whose issue is free keeps one active claim an issue. */
  lemma ActivateKeepsIssues(claims: seq<Claim>, run: Text, task: TaskTerms)
    requires OneActivePerIssue(claims) && DistinctRuns(claims)
    requires forall i :: 0 <= i < |claims| && claims[i].run == run ==>
      claims[i].repository == task.repository && claims[i].issue == task.issue
    requires !IssueClaimed(claims, task.repository, task.issue)
    ensures OneActivePerIssue(SetActive(claims, run, true))
  {
    hide DistinctRuns, IssueClaimed, SetActive;
    var claims' := SetActive(claims, run, true);
    forall i, j | 0 <= i < j < |claims'| && claims'[i].active && claims'[j].active
      ensures claims'[i].repository != claims'[j].repository || claims'[i].issue != claims'[j].issue
    {
      ActivatedPairDiffers(claims, run, task, i, j);
    }
  }

  /** A reactivation that is granted stays within the run's own writer limit and its issue is free. */
  lemma ReactivateKeepsInv(db: Db, run: Text, row: RunRow)
    requires ClaimsInv(db) && run in db.runs && row.task == db.runs[run].task && row.maxWorkers == db.runs[run].maxWorkers
    requires Reactivate(db.claims, run, row.task, row.maxWorkers).Ok?
    ensures var db' := db.(runs := db.runs[run := row], claims := Reactivate(db.claims, run, row.task, row.maxWorkers).value);
      ClaimsInv(db') && CountActive(db'.claims) <= row.maxWorkers
  {
    hide IssueClaimed, OneActivePerIssue, HasClaim;
    RowUpdateKeepsInv(db, run, row);
    var db1 := db.(runs := db.runs[run := row]);
    ActivateRaisesCountByOne(db1.claims, run);
    SetActiveKeepsRows(db1, run, true);
    ActivateKeepsIssues(db1.claims, run, row.task);
  }

  lemma RowUpdateKeepsInv(db: Db, run: Text, row: RunRow)
    requires ClaimsInv(db) && run in db.runs && row.task == db.runs[run].task && row.maxWorkers == db.runs[run].maxWorkers
    ensures ClaimsInv(db.(runs := db.runs[run := row]))
  {
  }

  lemma ReleaseKeepsInv(db: Db, run: Text)
    requires ClaimsInv(db)
    ensures ClaimsInv(db.(claims := SetActive(db.claims, run, false)))
  {
    hide OneActivePerIssue, OneClaimPerRun, ClaimsMatchRuns;
    ReleaseLowersCount(db.claims, run);
    SetActiveKeepsRows(db, run, false);
    ReleaseKeepsIssues(db.claims, run);
  }

  lemma InsertKeepsRows(db: Db, run: Text, row: RunRow, claim: Claim)
    requires OneClaimPerRun(db) && ClaimsMatchRuns(db) && run !in db.runs && row.maxWorkers in {1, 2}
    requires claim.run == run && claim.repository == row.task.repository && claim.issue == row.task.issue
    ensures var db' := db.(runs := db.runs[run := row], claims := db.claims + [claim]);
      OneClaimPerRun(db') && ClaimsMatchRuns(db')
  {
    var claims' := db.claims + [claim];
    forall other | other in db.runs[run := row] ensures HasClaim(claims', other) {
      if other == run {
        assert claims'[|db.claims|].run == run;
      } else {
        assert HasClaim(db.claims, other);
        var i :| 0 <= i < |db.claims| && db.claims[i].run == other;
        assert claims'[i].run == other;
      }
    }
    hide HasClaim;
  }

  lemma CreateKeepsInv(db: Db, run: Text, task: TaskTerms, maxWorkers: int)
    requires ClaimsInv(db)
    ensures ClaimsInv(Create(db, run, task, maxWorkers).0)
    ensures Create(db, run, task, maxWorkers).1.None? ==>
      CountActive(Create(db, run, task, maxWorkers).0.claims) <= maxWorkers
  {
    var (db', error) := Create(db, run, task, maxWorkers);
    if error.None? {
      InsertKeepsRows(db, run, db'.runs[run], Claim(task.repository, task.issue, run, true));
      hide OneClaimPerRun, ClaimsMatchRuns;
      assert db'.claims[..|db.claims|] == db.claims;
    }
  }

  /** Every store call keeps the claims invariant. */
  lemma CallKeepsClaims(rules: StoreRules, db: Db, c: StoreCall)
    requires ClaimsInv(db)
    ensures ClaimsInv(After(rules, db, c))
  {
    hide ClaimsInv, FindClaim, SetActive, CountActive, IssueClaimed;
    if c.CallCreate? {
      CreateKeepsInv(db, c.run, c.task, c.maxWorkers);
    } else if c.run in db.runs {
      var row := db.runs[c.run];
      if c.CallReleaseClaim? {
        ReleaseKeepsInv(db, c.run);
      } else if c.CallRecover? {
        if Reactivate(db.claims, c.run, row.task, row.maxWorkers).Ok? {
          ReactivateKeepsInv(db, c.run, row.(work := Recovered(row.work, c.ciRun)));
        }
      } else if c.CallCiFix? {
        RowUpdateKeepsInv(db, c.run, row.(work := WithFix(row.work, c.nextRound, c.ciRun)));
        if Reactivate(db.claims, c.run, row.task, row.maxWorkers).Ok? {
          ReactivateKeepsInv(db, c.run, row.(work := WithFix(row.work, c.nextRound, c.ciRun)));
        }
      } else {
        var db' := After(rules, db, c);
        OtherCallsKeepClaims(rules, db, c);
        RowUpdateKeepsInv(db, c.run, db'.runs[c.run]);
        UsageIsNotClaims(db.(runs := db'.runs), db');
      }
    }
  }

  lemma UsageIsNotClaims(db: Db, db': Db)
    requires ClaimsInv(db) && db'.runs == db.runs && db'.claims == db.claims
    ensures ClaimsInv(db')
  {
  }

  lemma OtherCallsKeepClaims(rules: StoreRules, db: Db, c: StoreCall)
    requires c.run in db.runs
    requires !c.CallCreate? && !c.CallReleaseClaim? && !c.CallRecover? && !c.CallCiFix?
    ensures var db' := After(rules, db, c);
      && db'.claims == db.claims && c.run in db'.runs && db'.runs == db.runs[c.run := db'.runs[c.run]]
      && db'.runs[c.run].task == db.runs[c.run].task && db'.runs[c.run].maxWorkers == db.runs[c.run].maxWorkers
  {
    assert db.runs == db.runs[c.run := db.runs[c.run]];
  }

  /** In every state any history of calls can reach, at most two claims are active overall, at most
      one per issue, and every run has one claim row. */
  lemma {:induction false} ClaimsAreBounded(rules: StoreRules, history: seq<StoreCall>)
    ensures ClaimsInv(Replayed(rules, history))
  {
    if history != [] {
      ClaimsAreBounded(rules, history[..|history| - 1]);
      CallKeepsClaims(rules, Replayed(rules, history[..|history| - 1]), history[|history| - 1]);
    }
  }

  ghost predicate HoldsClaim(db: Db, run: Text) {
    exists i :: 0 <= i < |db.claims| && db.claims[i].run == run && db.claims[i].active
  }

  lemma CreatedRunHoldsClaim(db: Db, run: Text, task: TaskTerms, maxWorkers: int, other: Text)
    ensures HoldsClaim(Create(db, run, task, maxWorkers).0, other) ==> HoldsClaim(db, other) || other == run
  {
    var db' := Create(db, run, task, maxWorkers).0;
    if HoldsClaim(db', other) {
      var i :| 0 <= i < |db'.claims| && db'.claims[i].run == other && db'.claims[i].active;
      assert i < |db.claims| ==> db.claims[i] == db'.claims[i];
    }
  }

  lemma ReleaseGainsNothing(db: Db, run: Text, other: Text)
    ensures HoldsClaim(db.(claims := SetActive(db.claims, run, false)), other) ==> HoldsClaim(db, other)
  {
    var db' := db.(claims := SetActive(db.claims, run, false));
    if HoldsClaim(db', other) {
      var i :| 0 <= i < |db'.claims| && db'.claims[i].run == other && db'.claims[i].active;
      assert db.claims[i].active;
    }
  }

  /** A run gains its claim only by being created, or in the very call that moves it out of BLOCKED,
      and then at most its own writer limit of claims is active. A BLOCKED run that such a call moves
      holds its claim afterwards. */
  lemma ClaimAndPhaseMoveTogether(rules: StoreRules, db: Db, c: StoreCall, run: Text)
    requires ClaimsInv(db)
    ensures var db' := After(rules, db, c);
      HoldsClaim(db', run) && !HoldsClaim(db, run) ==>
        && c.run == run && run in db'.runs
        && CountActive(db'.claims) <= db'.runs[run].maxWorkers
        && ((c.CallCreate? && run !in db.runs)
            || (run in db.runs && db.runs[run].work.phase == BlockedRun
                && db'.runs[run].work.phase in {FixRequested, ReviewRunning}))
    ensures var db' := After(rules, db, c);
      (run == c.run && run in db.runs && db.runs[run].work.phase == BlockedRun && (c.CallCiFix? || c.CallRecover?)
       && db'.runs[run].work.phase != BlockedRun) ==> HoldsClaim(db', run) && !HoldsClaim(db, run)
  {
    hide ClaimsInv, HoldsClaim, CountActive, IssueClaimed;
    if c.CallCreate? {
      CreateKeepsInv(db, c.run, c.task, c.maxWorkers);
      CreatedRunHoldsClaim(db, c.run, c.task, c.maxWorkers, run);
    } else if c.run in db.runs {
      var row := db.runs[c.run];
      if c.CallReleaseClaim? {
        ReleaseGainsNothing(db, c.run, run);
      } else if c.CallRecover? {
        if Reactivate(db.claims, c.run, row.task, row.maxWorkers).Ok? {
          ReactivationMovesClaim(db, c.run, run, row.(work := Recovered(row.work, c.ciRun)));
        }
      } else if c.CallCiFix? {
        if Reactivate(db.claims, c.run, row.task, row.maxWorkers).Ok? {
          ReactivationMovesClaim(db, c.run, run, row.(work := WithFix(row.work, c.nextRound, c.ciRun)));
        }
        SameClaimsSameHolders(db, db.(runs := db.runs[c.run := row.(work := WithFix(row.work, c.nextRound, c.ciRun))]), run);
      } else {
        OtherCallsKeepClaims(rules, db, c);
        SameClaimsSameHolders(db, After(rules, db, c), run);
      }
    }
  }

  lemma SameClaimsSameHolders(db: Db, db': Db, run: Text)
    requires db'.claims == db.claims
    ensures HoldsClaim(db', run) <==> HoldsClaim(db, run)
  {
  }

  lemma ReactivationMovesClaim(db: Db, run: Text, other: Text, row: RunRow)
    requires ClaimsInv(db) && run in db.runs && row.task == db.runs[run].task && row.maxWorkers == db.runs[run].maxWorkers
    requires Reactivate(db.claims, run, row.task, row.maxWorkers).Ok?
    ensures var db' := db.(runs := db.runs[run := row], claims := Reactivate(db.claims, run, row.task, row.maxWorkers).value);
      && !HoldsClaim(db, run) && HoldsClaim(db', run)
      && CountActive(db'.claims) <= row.maxWorkers
      && (other != run && HoldsClaim(db', other) ==> HoldsClaim(db, other))
  {
    ReactivateKeepsInv(db, run, row);
    ClaimRowsAreDistinct(db);
    hide ClaimsInv, CountActive, IssueClaimed, HoldsClaim, DistinctRuns;
    ActivatedRunHolds(db, db.(runs := db.runs[run := row], claims := SetActive(db.claims, run, true)), run, other);
  }

  lemma ClaimRowsAreDistinct(db: Db)
    requires ClaimsInv(db)
    ensures DistinctRuns(db.claims)
  {
  }

  lemma ActivatedRunHolds(db: Db, db': Db, run: Text, other: Text)
    requires DistinctRuns(db.claims) && db'.claims == SetActive(db.claims, run, true)
    requires FindClaim(db.claims, run).Some? && !FindClaim(db.claims, run).value.active
    ensures !HoldsClaim(db, run) && HoldsClaim(db', run)
    ensures other != run && HoldsClaim(db', other) ==> HoldsClaim(db, other)
  {
    var i :| 0 <= i < |db.claims| && db.claims[i] == FindClaim(db.claims, run).value;
    assert db'.claims[i].run == run && db'.claims[i].active;
    if other != run && HoldsClaim(db', other) {
      var j :| 0 <= j < |db'.claims| && db'.claims[j].run == other && db'.claims[j].active;
      assert db.claims[j].run == other && db.claims[j].active;
    }
  }

  // ---------------------------------------------------------------------------------------------
  // Exactly when a claim is granted

  /** Where the active claims stand. */
  function ActiveAt(claims: seq<Claim>): set<nat> {
    set i: nat | i < |claims| && claims[i].active
  }

  lemma {:induction false} CountIsActive(claims: seq<Claim>)
    ensures CountActive(claims) == |ActiveAt(claims)|
  {
    if claims == [] {
      assert ActiveAt(claims) == {};
    } else {
      var front, n := claims[..|claims| - 1], |claims| - 1;
      CountIsActive(front);
      assert ActiveAt(claims) == ActiveAt(front) + (if claims[n].active then {n} else {});
      assert n !in ActiveAt(front);
    }
  }

  /** No active claim is for this issue. */
  ghost predicate IssueFree(claims: seq<Claim>, task: TaskTerms) {
    forall i :: 0 <= i < |claims| && claims[i].active ==> claims[i].repository != task.repository || claims[i].issue != task.issue
  }

  /** A run is created exactly when a writer is free under the limit, the task has no unfinished run, its
      issue no active claim and the run's name is new; it then starts with nothing done, spent or held and
      with the claim, and a refusal changes nothing. */
  lemma CreateIsExact(db: Db, run: Text, task: TaskTerms, maxWorkers: int)
    ensures var (db', error) := Create(db, run, task, maxWorkers);
      && (error.None? <==>
            && maxWorkers in {1, 2} && |ActiveAt(db.claims)| < maxWorkers
            && run !in db.runs && IssueFree(db.claims, task)
            && forall other :: other in db.runs && db.runs[other].task.taskId == task.taskId ==>
                 db.runs[other].work.phase in {CompletedRun, BlockedRun, StoppedRun})
      && (error.Some? ==> db' == db)
      && (error.None? ==>
            && db' == db.(runs := db'.runs, claims := db.claims + [Claim(task.repository, task.issue, run, true)])
            && db'.runs == db.runs[run := RunRow(
                 task, maxWorkers,
                 WorkColumns(CreatedRun, KeepRunning, None, None, None, None, None, 0, 0, None, None, None),
                 Custody(LeaseColumns(None, None, None), AgentColumns(None, None, None, None)),
                 UsageColumns(Some(0), Some(0), 0, 0, None, None, None, None))])
  {
    CountIsActive(db.claims);
  }

  /** A claim of this run is there to take up again: it is inactive, its issue is free and a writer is
      free under the limit. */
  ghost predicate Claimable(db: Db, run: Text) {
    && run in db.runs
    && db.runs[run].maxWorkers in {1, 2} && |ActiveAt(db.claims)| < db.runs[run].maxWorkers
    && IssueFree(db.claims, db.runs[run].task)
    && exists i :: 0 <= i < |db.claims| && db.claims[i].run == run && !db.claims[i].active
  }

  lemma FoundClaim(claims: seq<Claim>, run: Text, i: nat)
    requires DistinctRuns(claims) && i < |claims| && claims[i].run == run
    ensures FindClaim(claims, run) == Some(claims[i])
  {
  }

  lemma ReactivateIsExact(db: Db, run: Text)
    requires DistinctRuns(db.claims) && run in db.runs
    ensures Reactivate(db.claims, run, db.runs[run].task, db.runs[run].maxWorkers).Ok? <==> Claimable(db, run)
    ensures Claimable(db, run) ==>
      Reactivate(db.claims, run, db.runs[run].task, db.runs[run].maxWorkers).value == Taken(db.claims, run)
  {
    CountIsActive(db.claims);
    assert IssueFree(db.claims, db.runs[run].task) <==> !IssueClaimed(db.claims, db.runs[run].task.repository, db.runs[run].task.issue);
    var found := FindClaim(db.claims, run);
    if found.Some? {
      var i :| 0 <= i < |db.claims| && db.claims[i] == found.value;
    }
    if i :| 0 <= i < |db.claims| && db.claims[i].run == run {
      FoundClaim(db.claims, run, i);
    }
  }

  /** The claims with those of one run active. */
  function Taken(claims: seq<Claim>, run: Text): seq<Claim> {
    seq(|claims|, i requires 0 <= i < |claims| => if claims[i].run == run then claims[i].(active := true) else claims[i])
  }

  /** The CI recovery of a BLOCKED run moves it to review exactly when the owner lets it run, its head is the
      expected one and its claim can be taken up again; a refusal changes nothing. */
  lemma RecoverIsExact(db: Db, run: Text, head: Sha, ciRun: nat)
    requires ClaimsInv(db)
    ensures var (db', error) := RecoverBlocked(db, run, head, ciRun);
      && (error.None? <==>
            && run in db.runs && db.runs[run].work.phase == BlockedRun && db.runs[run].work.desired == KeepRunning
            && db.runs[run].work.head == Some(head) && Claimable(db, run))
      && (error.Some? ==> db' == db)
      && (error.None? ==>
            var row := db.runs[run];
            db' == db.(claims := Taken(db.claims, run), runs := db.runs[run := row.(work := row.work.(
              phase := ReviewRunning, ciRun := Some(ciRun), lastError := None, reviewedHead := None, reviewStarted := None))]))
  {
    ClaimRowsAreDistinct(db);
    hide ClaimsInv, Claimable, Reactivate;
    if run in db.runs {
      ReactivateIsExact(db, run);
    }
  }

  /** A CI fix is requested exactly of a run in the expected phase, on the expected head and round, that the
      owner lets run, and of a BLOCKED one only with its claim; it counts one more round. */
  lemma CiFixIsExact(db: Db, run: Text, phase: RunPhase, head: Sha, rounds: nat, next: nat, ciRun: nat)
    requires ClaimsInv(db)
    ensures var (db', error) := RecordCiFix(db, run, phase, head, rounds, next, ciRun);
      && (error.None? <==>
            && phase in {CiWaiting, BlockedRun} && next == rounds + 1 && run in db.runs
            && db.runs[run].work.phase == phase && db.runs[run].work.desired == KeepRunning
            && db.runs[run].work.head == Some(head) && db.runs[run].work.fixRounds == rounds
            && (phase == BlockedRun ==> Claimable(db, run)))
      && (error.Some? ==> db' == db)
      && (error.None? ==>
            var row := db.runs[run];
            db' == db.(
              claims := if phase == BlockedRun then Taken(db.claims, run) else db.claims,
              runs := db.runs[run := row.(work := row.work.(
                phase := FixRequested, fixRounds := rounds + 1, ciRun := Some(ciRun), reviewedHead := None,
                reviewStarted := None, lastError := None))]))
  {
    ClaimRowsAreDistinct(db);
    hide ClaimsInv, Claimable, Reactivate;
    if run in db.runs {
      ReactivateIsExact(db, run);
    }
  }
}
