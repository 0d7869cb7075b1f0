/** The records of `orchestrator/models.py` and the rows of `orchestrator/store.py`. */
module RunnerModels {
  import opened Common

  datatype RunPhase =
    | CreatedRun
    | ClaimedIssue
    | WorkerRunning
    | WorkerComplete
    | CiWaiting
    | ReviewRunning
    | FixRequested
    | ReadyForOwner
    | MergePendingConfirmation
    | MergeAuthorized
    | OwnerMerged
    | PausedRun
    | StoppedRun
    | BlockedRun
    | CompletedRun

  datatype DesiredState = KeepRunning | Pause | Stop

  datatype Role = Worker | Reviewer

  datatype Normalization = Complete | Partial | UnknownUsage

  /** The raw columns of one usage record. */
  datatype RawUsage = RawUsage(
    rawInput: Option<nat>,
    cachedInput: Option<nat>,
    freshInput: Option<int>,
    rawOutput: Option<nat>,
    reasoning: Option<nat>,
    providerTotal: Option<nat>,
    state: Normalization)

  datatype UsageAccounting = UsageAccounting(raw: RawUsage, enforceable: Option<int>)

  /** What a provider reported; an omitted field never becomes zero. */
  datatype Usage = Usage(
    rawInput: Option<nat>,
    cachedInput: Option<nat>,
    rawOutput: Option<nat>,
    reasoning: Option<nat>,
    providerTotal: Option<nat>)
  {
    /** `validate_subset_relationships`. */
    predicate Valid() {
      && (rawInput.Some? && cachedInput.Some? ==> cachedInput.value <= rawInput.value)
      && (rawOutput.Some? && reasoning.Some? ==> reasoning.value <= rawOutput.value)
    }

    function Raw(freshInput: Option<int>, state: Normalization): RawUsage {
      RawUsage(rawInput, cachedInput, freshInput, rawOutput, reasoning, providerTotal, state)
    }

    function FreshInput(): Option<int> {
      if rawInput.Some? && cachedInput.Some? then Some(rawInput.value - cachedInput.value) else None
    }

    /** `normalize_codex`. */
    function NormalizeCodex(): UsageAccounting {
      if rawInput.Some? && cachedInput.Some? && rawOutput.Some? && reasoning.Some? then
        var freshTokens := rawInput.value - cachedInput.value;
        UsageAccounting(Raw(Some(freshTokens), Complete), Some(freshTokens + rawOutput.value))
      else if rawInput.None? && cachedInput.None? && rawOutput.None? && reasoning.None? && providerTotal.None? then
        UsageAccounting(RawUsage(None, None, None, None, None, None, UnknownUsage), None)
      else UsageAccounting(Raw(FreshInput(), Partial), None)
    }

    /** `normalize_cumulative_provider`. */
    function NormalizeCumulative(): UsageAccounting {
      var nothing :=
        rawInput.None? && cachedInput.None? && rawOutput.None? && reasoning.None? && providerTotal.None?;
      UsageAccounting(Raw(None, if nothing then UnknownUsage else Partial), None)
    }
  }

  /** The `UsageAccounting` validator, an independent check of derived values. */
  predicate ValidAccounting(a: UsageAccounting) {
    var raw := a.raw;
    && (raw.freshInput.Some? ==> 0 <= raw.freshInput.value)
    && (a.enforceable.Some? ==> 0 <= a.enforceable.value)
    && (raw.state == Complete ==>
          && raw.rawInput.Some? && raw.cachedInput.Some? && raw.rawOutput.Some? && raw.reasoning.Some?
          && raw.freshInput == Some(raw.rawInput.value - raw.cachedInput.value)
          && a.enforceable == Some(raw.rawInput.value - raw.cachedInput.value + raw.rawOutput.value))
    && (raw.state == UnknownUsage ==>
          && raw.rawInput.None? && raw.cachedInput.None? && raw.rawOutput.None? && raw.reasoning.None?
          && raw.providerTotal.None? && raw.freshInput.None? && a.enforceable.None?)
  }

  datatype Basis = CodexComponents | ProviderCumulative | Unavailable

  datatype UsageRow = UsageRow(
    run: Text,
    invocation: Text,
    role: Role,
    session: Text,
    digest: Text,
    raw: RawUsage,
    enforceable: Option<int>,
    basis: Basis)

  /** The usage columns of a run. */
  datatype UsageColumns = UsageColumns(
    workerTotal: Option<int>,
    reviewerTotal: Option<int>,
    total: int,
    cumulative: nat,
    workerSession: Option<Text>,
    reviewerSession: Option<Text>,
    workerDigest: Option<Text>,
    reviewerDigest: Option<Text>)

  const NO_USAGE := UsageColumns(Some(0), Some(0), 0, 0, None, None, None, None)

  /** `pid`, `process_identity`, `process_token`. */
  datatype LeaseColumns = LeaseColumns(pid: Option<nat>, identity: Option<Text>, token: Option<Text>)

  const NO_LEASE := LeaseColumns(None, None, None)

  /** `active_agent_pid` and its companions. */
  datatype AgentColumns = AgentColumns(
    pid: Option<nat>,
    identity: Option<Text>,
    completionPath: Option<Text>,
    nonce: Option<Text>)

  const NO_AGENT := AgentColumns(None, None, None, None)

  /** Who holds a run, and which agent process is registered for it. */
  datatype Custody = Custody(lease: LeaseColumns, agent: AgentColumns)

  const FREE := Custody(NO_LEASE, NO_AGENT)

  /** What identifies a run's task. */
  datatype TaskTerms = TaskTerms(taskId: Text, repository: Text, issue: nat)

  /** A git object id. It names its parents, the paths its tree changes against the first one, its
      subject and everything else (tree contents, author, date) in `rest`; no two commits share one. */
  datatype Sha =
    | Root(name: Text)
    | Commit(parents: seq<Sha>, touched: set<Text>, subject: Text, rest: nat)

  /** The checkpoint columns of a run. */
  datatype WorkColumns = WorkColumns(
    phase: RunPhase,
    desired: DesiredState,
    head: Option<Sha>,
    reviewedHead: Option<Sha>,
    reviewStarted: Option<Sha>,
    workerParent: Option<Sha>,
    mergeSha: Option<Sha>,
    fixRounds: nat,
    invocations: nat,
    ciRun: Option<nat>,
    pr: Option<nat>,
    lastError: Option<Text>)

  const NEW_WORK := WorkColumns(CreatedRun, KeepRunning, None, None, None, None, None, 0, 0, None, None, None)

  /** The compare-and-swap guard of `record_ci_fix_request`. */
  predicate FixExpected(row: WorkColumns, phase: RunPhase, head: Sha, rounds: nat) {
    row.phase == phase && row.desired == KeepRunning && row.head == Some(head) && row.fixRounds == rounds
  }

  /** What `record_ci_fix_request` writes. */
  function WithFix(row: WorkColumns, nextRound: nat, run: nat): WorkColumns {
    row.(phase := FixRequested, fixRounds := nextRound, ciRun := Some(run), reviewedHead := None, reviewStarted := None,
         lastError := None)
  }

  /** The compare-and-swap guard of `recover_blocked_ci_pass`. */
  predicate RecoveryExpected(row: WorkColumns, head: Sha) {
    row.phase == BlockedRun && row.desired == KeepRunning && row.head == Some(head)
  }

  /** What `recover_blocked_ci_pass` writes. */
  function Recovered(row: WorkColumns, run: nat): WorkColumns {
    row.(phase := ReviewRunning, ciRun := Some(run), lastError := None, reviewedHead := None, reviewStarted := None)
  }

  datatype RunRow = RunRow(
    task: TaskTerms,
    maxWorkers: int,
    work: WorkColumns,
    custody: Custody,
    usage: UsageColumns)

  datatype Claim = Claim(repository: Text, issue: nat, run: Text, active: bool)

  datatype Channel = Stdout | Stderr

  /** The unique key of one stream position; the source joins the parts with colons. */
  datatype SourceKey = SourceKey(role: Role, invocation: Text, channel: Channel, sequence: nat)

  datatype ActivityRow = ActivityRow(run: Text, source: SourceKey, payload: Text)

  datatype Db = Db(
    runs: map<Text, RunRow>,
    claims: seq<Claim>,
    usage: seq<UsageRow>,
    activity: seq<ActivityRow>)

  const EMPTY_DB := Db(map[], [], [], [])

  /** The exception classes of the store. */
  datatype StoreError = BadValue | UnknownRun | Conflict | ConstraintFailed
}
