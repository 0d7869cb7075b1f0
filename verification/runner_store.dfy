/** `orchestrator/store.py`: every method as a function on the tables, and the store as the class
    that updates them in place, one transaction a method. */
module RunnerStore {
  import opened Common
  import opened RunnerModels

  /** Which texts pass the store's argument checks. */
  datatype StoreRules = StoreRules(invocationIds: iset<Text>, digests: iset<Text>, empty: Text)

  function CountActive(claims: seq<Claim>): nat {
    if claims == [] then 0
    else CountActive(claims[..|claims| - 1]) + (if claims[|claims| - 1].active then 1 else 0)
  }

  predicate IssueClaimed(claims: seq<Claim>, repository: Text, issue: nat) {
    exists i :: 0 <= i < |claims| && claims[i].active && claims[i].repository == repository && claims[i].issue == issue
  }

  predicate Unfinished(p: RunPhase) {
    p != CompletedRun && p != BlockedRun && p != StoppedRun
  }

  predicate TaskBusy(runs: map<Text, RunRow>, taskId: Text) {
    exists run :: run in runs && runs[run].task.taskId == taskId && Unfinished(runs[run].work.phase)
  }

  /** The rows an insert into `runs` and `claims` may not break: the primary key, the writer-limit
      CHECK, and one active claim per issue. */
  predicate InsertFails(db: Db, run: Text, task: TaskTerms, maxWorkers: int) {
    run in db.runs || maxWorkers !in {1, 2} || IssueClaimed(db.claims, task.repository, task.issue)
  }

  function Create(db: Db, run: Text, task: TaskTerms, maxWorkers: int): (Db, Option<StoreError>) {
    if CountActive(db.claims) >= maxWorkers then (db, Some(Conflict))
    else if TaskBusy(db.runs, task.taskId) then (db, Some(Conflict))
    else if InsertFails(db, run, task, maxWorkers) then (db, Some(ConstraintFailed))
    else
      (db.(runs := db.runs[run := RunRow(task, maxWorkers, NEW_WORK, FREE, NO_USAGE)],
           claims := db.claims + [Claim(task.repository, task.issue, run, true)]),
       None)
  }

  // ---------------------------------------------------------------------------------------------
  // Leases and agents. Each UPDATE names the columns it matches; zero matched rows is the answer
  // the method reports or ignores.

  function AcquireLease(c: Custody, pid: nat, identity: Text, token: Text): Result<Custody, StoreError> {
    if c.lease.token.Some? then Err(Conflict)
    else Ok(c.(lease := LeaseColumns(Some(pid), Some(identity), Some(token))))
  }

  function RegisterAgent(c: Custody, token: Text, agent: AgentColumns): Result<Custody, StoreError> {
    if c.lease.token == Some(token) && c.agent.pid.None? then Ok(c.(agent := agent)) else Err(Conflict)
  }

  predicate AgentMatches(c: Custody, token: Text, pid: nat, identity: Text) {
    c.lease.token == Some(token) && c.agent.pid == Some(pid) && c.agent.identity == Some(identity)
  }

  function ForgetAgent(c: Custody, token: Text, pid: nat, identity: Text): Custody {
    if AgentMatches(c, token, pid, identity) then c.(agent := NO_AGENT) else c
  }

  function ForgetStaleAgent(c: Custody, token: Text, pid: nat, identity: Text): Result<Custody, StoreError> {
    if AgentMatches(c, token, pid, identity) then Ok(c.(agent := NO_AGENT)) else Err(Conflict)
  }

  /** `release_process_lease`: silent when another token holds the lease, refused while an agent is
      registered under this one. */
  function ReleaseLease(c: Custody, token: Text): Result<Custody, StoreError> {
    if c.lease.token != Some(token) then Ok(c)
    else if c.agent.pid.Some? then Err(Conflict)
    else Ok(c.(lease := NO_LEASE))
  }

  /** `clear_stale_process_lease`: it does not look at the agent columns. */
  function DropStaleLease(c: Custody, pid: nat, identity: Text, token: Text): Result<Custody, StoreError> {
    if c.lease == LeaseColumns(Some(pid), Some(identity), Some(token)) then Ok(c.(lease := NO_LEASE))
    else Err(Conflict)
  }

  /** One conditional UPDATE of one run. */
  function OnRow(db: Db, run: Text, result: Result<Custody, StoreError>): (Db, Option<StoreError>)
    requires run in db.runs
  {
    match result
    case Ok(custody) => (db.(runs := db.runs[run := db.runs[run].(custody := custody)]), None)
    case Err(e) => (db, Some(e))
  }

  function Acquire(rules: StoreRules, db: Db, run: Text, pid: nat, identity: Text, token: Text): (Db, Option<StoreError>) {
    if identity == rules.empty then (db, Some(BadValue))
    else if run !in db.runs then (db, Some(UnknownRun))
    else OnRow(db, run, AcquireLease(db.runs[run].custody, pid, identity, token))
  }

  function SetAgent(
    rules: StoreRules, db: Db, run: Text, token: Text, pid: nat, identity: Text, completionPath: Text, nonce: Text)
    : (Db, Option<StoreError>)
  {
    if identity == rules.empty || completionPath == rules.empty || nonce == rules.empty then (db, Some(BadValue))
    else if run !in db.runs then (db, Some(Conflict))
    else
      OnRow(db, run, RegisterAgent(db.runs[run].custody, token, AgentColumns(Some(pid), Some(identity), Some(completionPath), Some(nonce))))
  }

  function ClearAgent(db: Db, run: Text, token: Text, pid: nat, identity: Text): (Db, Option<StoreError>) {
    if run !in db.runs then (db, None)
    else OnRow(db, run, Ok(ForgetAgent(db.runs[run].custody, token, pid, identity)))
  }

  function ClearStaleAgent(db: Db, run: Text, token: Text, pid: nat, identity: Text): (Db, Option<StoreError>) {
    if run !in db.runs then (db, Some(Conflict))
    else OnRow(db, run, ForgetStaleAgent(db.runs[run].custody, token, pid, identity))
  }

  function Release(db: Db, run: Text, token: Text): (Db, Option<StoreError>) {
    if run !in db.runs then (db, None) else OnRow(db, run, ReleaseLease(db.runs[run].custody, token))
  }

  function ClearStaleLease(db: Db, run: Text, pid: nat, identity: Text, token: Text): (Db, Option<StoreError>) {
    if run !in db.runs then (db, Some(Conflict))
    else OnRow(db, run, DropStaleLease(db.runs[run].custody, pid, identity, token))
  }

  // ---------------------------------------------------------------------------------------------
  // Usage

  /** One `record_invocation_usage` call. */
  datatype UsageCall = UsageCall(
    invocation: Text,
    role: Role,
    session: Text,
    digest: Text,
    accounting: UsageAccounting,
    cumulative: bool)

  datatype UsageReply = UsageReply(row: UsageRow, roleTotal: Option<int>, replayed: bool)

  function BasisOf(call: UsageCall): Basis {
    if call.cumulative then ProviderCumulative
    else if call.accounting.enforceable.Some? then CodexComponents
    else Unavailable
  }

  function FindUsage(rows: seq<UsageRow>, run: Text, invocation: Text): (found: Option<UsageRow>)
    ensures found.Some? ==> found.value in rows && found.value.run == run && found.value.invocation == invocation
    ensures found.None? ==> forall row :: row in rows ==> row.run != run || row.invocation != invocation
  {
    if rows == [] then None
    else if rows[0].run == run && rows[0].invocation == invocation then Some(rows[0])
    else FindUsage(rows[1..], run, invocation)
  }

  function RoleTotal(u: UsageColumns, role: Role): Option<int> {
    if role == Worker then u.workerTotal else u.reviewerTotal
  }

  /** The same evidence as the stored record; a cumulative record's own delta is not compared. */
  predicate SameEvidence(row: UsageRow, call: UsageCall) {
    && row.role == call.role
    && row.session == call.session
    && row.digest == call.digest
    && row.basis == BasisOf(call)
    && row.raw == call.accounting.raw
    && (call.cumulative || row.enforceable == call.accounting.enforceable)
  }

  predicate UsageArgumentsOk(rules: StoreRules, call: UsageCall) {
    && call.invocation in rules.invocationIds
    && call.digest in rules.digests
    && call.session != rules.empty
    && (call.cumulative ==> call.role == Worker)
  }

  /** The tokens a new record enforces: a cumulative total counts only what it adds. */
  function Charge(u: UsageColumns, call: UsageCall): Option<int> {
    if call.cumulative && call.accounting.raw.providerTotal.Some? then
      Some(call.accounting.raw.providerTotal.value - u.cumulative)
    else call.accounting.enforceable
  }

  function AddTokens(total: int, tokens: Option<int>): int {
    if tokens.Some? then total + tokens.value else total
  }

  /** The usage columns after a new record. */
  function Charged(u: UsageColumns, call: UsageCall): UsageColumns
    requires RoleTotal(u, call.role).Some?
  {
    var tokens := Charge(u, call);
    var total := AddTokens(u.total, tokens);
    var roleTotal := Some(AddTokens(RoleTotal(u, call.role).value, tokens));
    var cumulative :=
      if call.cumulative && call.accounting.raw.providerTotal.Some? then call.accounting.raw.providerTotal.value
      else u.cumulative;
    if call.role == Worker then
      u.(workerTotal := roleTotal, total := total, cumulative := cumulative,
         workerSession := Some(call.session), workerDigest := Some(call.digest))
    else
      u.(reviewerTotal := roleTotal, total := total, cumulative := cumulative,
         reviewerSession := Some(call.session), reviewerDigest := Some(call.digest))
  }

  function NewUsageRow(run: Text, u: UsageColumns, call: UsageCall): UsageRow {
    UsageRow(run, call.invocation, call.role, call.session, call.digest, call.accounting.raw, Charge(u, call), BasisOf(call))
  }

  /** Why a new record would be refused. */
  function UsageRefusal(u: UsageColumns, call: UsageCall): Option<StoreError> {
    if RoleTotal(u, call.role).None? then Some(Conflict)
    else if call.role == Worker && u.workerSession.Some? && u.workerSession.value != call.session then Some(Conflict)
    else if call.cumulative && call.accounting.raw.providerTotal.None? then Some(Conflict)
    else if call.cumulative && call.accounting.raw.providerTotal.value < u.cumulative then Some(Conflict)
    else None
  }

  function RecordUsage(rules: StoreRules, db: Db, run: Text, call: UsageCall): (Db, Result<UsageReply, StoreError>) {
    if !UsageArgumentsOk(rules, call) then (db, Err(BadValue))
    else
      match FindUsage(db.usage, run, call.invocation)
      case Some(existing) =>
        if !SameEvidence(existing, call) then (db, Err(Conflict))
        else if run !in db.runs then (db, Err(UnknownRun))
        else (db, Ok(UsageReply(existing, RoleTotal(db.runs[run].usage, call.role), true)))
      case None =>
        if run !in db.runs then (db, Err(UnknownRun))
        else
          var u := db.runs[run].usage;
          if UsageRefusal(u, call).Some? then (db, Err(UsageRefusal(u, call).value))
          else
            var charged := Charged(u, call);
            (db.(runs := db.runs[run := db.runs[run].(usage := charged)], usage := db.usage + [NewUsageRow(run, u, call)]),
             Ok(UsageReply(NewUsageRow(run, u, call), RoleTotal(charged, call.role), false)))
  }

  // ---------------------------------------------------------------------------------------------
  // Phases and claims

  function Transition(row: RunRow, phase: RunPhase): RunRow {
    row.(work := row.work.(phase := phase))
  }

  predicate CiFixArgumentsOk(expectedPhase: RunPhase, expectedRounds: nat, nextRound: nat) {
    expectedPhase in {CiWaiting, BlockedRun} && nextRound == expectedRounds + 1
  }

  /** `SELECT active FROM claims WHERE run_id = ?`, first row. */
  function FindClaim(claims: seq<Claim>, run: Text): (found: Option<Claim>)
    ensures found.Some? ==> found.value in claims && found.value.run == run
    ensures found.None? ==> forall c :: c in claims ==> c.run != run
  {
    if claims == [] then None
    else if claims[0].run == run then Some(claims[0])
    else FindClaim(claims[1..], run)
  }

  /** `UPDATE claims SET active = ? WHERE run_id = ? AND active != ?`. */
  function SetActive(claims: seq<Claim>, run: Text, active: bool): (r: seq<Claim>)
    ensures |r| == |claims|
    ensures forall i :: 0 <= i < |claims| ==>
      r[i] == if claims[i].run == run then claims[i].(active := active) else claims[i]
  {
    if claims == [] then []
    else
      var last := claims[|claims| - 1];
      SetActive(claims[..|claims| - 1], run, active) + [if last.run == run then last.(active := active) else last]
  }

  /** `_reactivate_claim_in_transaction`. */
  function Reactivate(claims: seq<Claim>, run: Text, task: TaskTerms, maxWorkers: int): Result<seq<Claim>, StoreError> {
    if !(1 <= maxWorkers <= 2) then Err(Conflict)
    else if FindClaim(claims, run).None? then Err(Conflict)
    else if FindClaim(claims, run).value.active then Err(Conflict)
    else if IssueClaimed(claims, task.repository, task.issue) then Err(Conflict)
    else if CountActive(claims) >= maxWorkers then Err(Conflict)
    else Ok(SetActive(claims, run, true))
  }

  function RecordCiFix(
    db: Db, run: Text, expectedPhase: RunPhase, expectedHead: Sha, expectedRounds: nat, nextRound: nat, ciRun: nat)
    : (Db, Option<StoreError>)
  {
    if !CiFixArgumentsOk(expectedPhase, expectedRounds, nextRound) then (db, Some(BadValue))
    else if run !in db.runs then (db, Some(UnknownRun))
    else
      var row := db.runs[run];
      if !FixExpected(row.work, expectedPhase, expectedHead, expectedRounds) then (db, Some(Conflict))
      else
        var moved := db.(runs := db.runs[run := row.(work := WithFix(row.work, nextRound, ciRun))]);
        if expectedPhase != BlockedRun then (moved, None)
        else
          match Reactivate(db.claims, run, row.task, row.maxWorkers)
          case Err(e) => (db, Some(e))
          case Ok(claims) => (moved.(claims := claims), None)
  }

  function RecoverBlocked(db: Db, run: Text, expectedHead: Sha, ciRun: nat): (Db, Option<StoreError>) {
    if run !in db.runs then (db, Some(UnknownRun))
    else
      var row := db.runs[run];
      if !RecoveryExpected(row.work, expectedHead) then
        (db, Some(Conflict))
      else
        match Reactivate(db.claims, run, row.task, row.maxWorkers)
        case Err(e) => (db, Some(e))
        case Ok(claims) => (db.(runs := db.runs[run := row.(work := Recovered(row.work, ciRun))], claims := claims), None)
  }

  // ---------------------------------------------------------------------------------------------
  // Activity

  predicate SourceTaken(rows: seq<ActivityRow>, run: Text, source: SourceKey) {
    exists i :: 0 <= i < |rows| && rows[i].run == run && rows[i].source == source
  }

  function SessionOf(u: UsageColumns, role: Role): Option<Text> {
    if role == Worker then u.workerSession else u.reviewerSession
  }

  function PinSession(u: UsageColumns, role: Role, session: Text): UsageColumns {
    if role == Worker then u.(workerSession := Some(session)) else u.(reviewerSession := Some(session))
  }

  /** `INSERT OR IGNORE` on the unique index of stream positions. */
  function InsertActivity(rows: seq<ActivityRow>, row: ActivityRow): seq<ActivityRow> {
    if SourceTaken(rows, row.run, row.source) then rows else rows + [row]
  }

  function AppendActivity(db: Db, row: ActivityRow, pin: Option<(Role, Text)>): (Db, Result<bool, StoreError>) {
    if row.run !in db.runs then (db, Err(if pin.Some? then UnknownRun else ConstraintFailed))
    else
      var u := db.runs[row.run].usage;
      if pin.Some? && SessionOf(u, pin.value.0).Some? && SessionOf(u, pin.value.0).value != pin.value.1 then
        (db, Err(Conflict))
      else
        var u' := if pin.Some? then PinSession(u, pin.value.0, pin.value.1) else u;
        (db.(runs := db.runs[row.run := db.runs[row.run].(usage := u')], activity := InsertActivity(db.activity, row)),
         Ok(!SourceTaken(db.activity, row.run, row.source)))
  }

  // ---------------------------------------------------------------------------------------------
  // Every call

  /** One transaction of the store. `UpdateRun` stands for `update_run` on the checkpoint columns and
      the worker session, with any values. */
  datatype StoreCall =
    | CallCreate(run: Text, task: TaskTerms, maxWorkers: int)
    | CallAcquire(run: Text, pid: nat, identity: Text, token: Text)
    | CallSetAgent(run: Text, token: Text, pid: nat, identity: Text, completionPath: Text, nonce: Text)
    | CallClearAgent(run: Text, token: Text, pid: nat, identity: Text)
    | CallClearStaleAgent(run: Text, token: Text, pid: nat, identity: Text)
    | CallRelease(run: Text, token: Text)
    | CallClearStaleLease(run: Text, pid: nat, identity: Text, token: Text)
    | CallUsage(run: Text, usage: UsageCall)
    | CallTransition(run: Text, phase: RunPhase)
    | CallUpdate(run: Text, work: WorkColumns, session: Option<Text>)
    | CallCiFix(run: Text, expectedPhase: RunPhase, expectedHead: Sha, expectedRounds: nat, nextRound: nat, ciRun: nat)
    | CallRecover(run: Text, recoveredHead: Sha, ciRun: nat)
    | CallReleaseClaim(run: Text)
    | CallActivity(run: Text, source: SourceKey, payload: Text, pin: Option<(Role, Text)>)

  function UpdatedRow(row: RunRow, work: WorkColumns, session: Option<Text>): RunRow {
    row.(work := work, usage := if session.Some? then row.usage.(workerSession := session) else row.usage)
  }

  /** The tables after a call, whatever it answered. */
  function After(rules: StoreRules, db: Db, c: StoreCall): Db {
    if c.CallCreate? then Create(db, c.run, c.task, c.maxWorkers).0
    else if c.run !in db.runs then db
    else
      var row := db.runs[c.run];
      match c
      case CallCreate(_, _, _) => db
      case CallAcquire(run, pid, identity, token) => Acquire(rules, db, run, pid, identity, token).0
      case CallSetAgent(run, token, pid, identity, path, nonce) => SetAgent(rules, db, run, token, pid, identity, path, nonce).0
      case CallClearAgent(run, token, pid, identity) => ClearAgent(db, run, token, pid, identity).0
      case CallClearStaleAgent(run, token, pid, identity) => ClearStaleAgent(db, run, token, pid, identity).0
      case CallRelease(run, token) => Release(db, run, token).0
      case CallClearStaleLease(run, pid, identity, token) => ClearStaleLease(db, run, pid, identity, token).0
      case CallUsage(run, call) => RecordUsage(rules, db, run, call).0
      case CallTransition(run, phase) => db.(runs := db.runs[run := Transition(row, phase)])
      case CallUpdate(run, work, session) => db.(runs := db.runs[run := UpdatedRow(row, work, session)])
      case CallCiFix(run, p, head, rounds, next, ciRun) => RecordCiFix(db, run, p, head, rounds, next, ciRun).0
      case CallRecover(run, head, ciRun) => RecoverBlocked(db, run, head, ciRun).0
      case CallReleaseClaim(run) => db.(claims := SetActive(db.claims, run, false))
      case CallActivity(run, source, payload, pin) => AppendActivity(db, ActivityRow(run, source, payload), pin).0
  }

  /** The tables after a history of calls, from an empty database. */
  function Replayed(rules: StoreRules, history: seq<StoreCall>): Db {
    if history == [] then EMPTY_DB
    else After(rules, Replayed(rules, history[..|history| - 1]), history[|history| - 1])
  }

  /** The store: four tables, updated in place by one transaction a method. */
  class StateStore {
    var runs: map<Text, RunRow>
    var claims: seq<Claim>
    var usage: seq<UsageRow>
    var activity: seq<ActivityRow>
    const rules: StoreRules

    ghost function Contents(): Db
      reads this
    {
      Db(runs, claims, usage, activity)
    }

    constructor (rules: StoreRules)
      ensures Contents() == EMPTY_DB && this.rules == rules
    {
      runs, claims, usage, activity := map[], [], [], [];
      this.rules := rules;
    }

    method CreateRun(run: Text, task: TaskTerms, maxWorkers: int) returns (error: Option<StoreError>)
      modifies this
      ensures (Contents(), error) == Create(old(Contents()), run, task, maxWorkers)
    {
      var active := 0;
      for i := 0 to |claims|
        invariant active == CountActive(claims[..i])
      {
        assert claims[..i + 1][..i] == claims[..i];
        if claims[i].active {
          active := active + 1;
        }
      }
      assert claims[..|claims|] == claims;
      if active >= maxWorkers {
        return Some(Conflict);
      }
      if TaskBusy(runs, task.taskId) {
        return Some(Conflict);
      }
      if run in runs || maxWorkers !in {1, 2} || IssueClaimed(claims, task.repository, task.issue) {
        return Some(ConstraintFailed);
      }
      runs := runs[run := RunRow(task, maxWorkers, NEW_WORK, FREE, NO_USAGE)];
      claims := claims + [Claim(task.repository, task.issue, run, true)];
      return None;
    }

    method AcquireProcessLease(run: Text, pid: nat, identity: Text, token: Text) returns (error: Option<StoreError>)
      modifies this
      ensures (Contents(), error) == Acquire(rules, old(Contents()), run, pid, identity, token)
    {
      if identity == rules.empty {
        return Some(BadValue);
      }
      if run !in runs {
        return Some(UnknownRun);
      }
      if runs[run].custody.lease.token.Some? {
        return Some(Conflict);
      }
      runs := runs[run := runs[run].(custody := runs[run].custody.(lease := LeaseColumns(Some(pid), Some(identity), Some(token))))];
      return None;
    }

    method SetActiveAgent(run: Text, token: Text, pid: nat, identity: Text, completionPath: Text, nonce: Text)
      returns (error: Option<StoreError>)
      modifies this
      ensures (Contents(), error) == SetAgent(rules, old(Contents()), run, token, pid, identity, completionPath, nonce)
    {
      if identity == rules.empty || completionPath == rules.empty || nonce == rules.empty {
        return Some(BadValue);
      }
      if run !in runs || runs[run].custody.lease.token != Some(token) || runs[run].custody.agent.pid.Some? {
        return Some(Conflict);
      }
      var agent := AgentColumns(Some(pid), Some(identity), Some(completionPath), Some(nonce));
      runs := runs[run := runs[run].(custody := runs[run].custody.(agent := agent))];
      return None;
    }

    method ClearActiveAgent(run: Text, token: Text, pid: nat, identity: Text)
      modifies this
      ensures Contents() == ClearAgent(old(Contents()), run, token, pid, identity).0
    {
      if run in runs {
        assert runs[run := runs[run]] == runs;
        if AgentMatches(runs[run].custody, token, pid, identity) {
          runs := runs[run := runs[run].(custody := runs[run].custody.(agent := NO_AGENT))];
        }
      }
    }

    method ClearStaleActiveAgent(run: Text, token: Text, pid: nat, identity: Text) returns (error: Option<StoreError>)
      modifies this
      ensures (Contents(), error) == ClearStaleAgent(old(Contents()), run, token, pid, identity)
    {
      if run !in runs || !AgentMatches(runs[run].custody, token, pid, identity) {
        return Some(Conflict);
      }
      runs := runs[run := runs[run].(custody := runs[run].custody.(agent := NO_AGENT))];
      return None;
    }

    method ReleaseProcessLease(run: Text, token: Text) returns (error: Option<StoreError>)
      modifies this
      ensures (Contents(), error) == Release(old(Contents()), run, token)
    {
      if run !in runs {
        return None;
      }
      assert runs[run := runs[run]] == runs;
      if runs[run].custody.lease.token == Some(token) {
        if runs[run].custody.agent.pid.Some? {
          return Some(Conflict);
        }
        runs := runs[run := runs[run].(custody := runs[run].custody.(lease := NO_LEASE))];
      }
      return None;
    }

    method ClearStaleProcessLease(run: Text, pid: nat, identity: Text, token: Text) returns (error: Option<StoreError>)
      modifies this
      ensures (Contents(), error) == ClearStaleLease(old(Contents()), run, pid, identity, token)
    {
      if run !in runs || runs[run].custody.lease != LeaseColumns(Some(pid), Some(identity), Some(token)) {
        return Some(Conflict);
      }
      runs := runs[run := runs[run].(custody := runs[run].custody.(lease := NO_LEASE))];
      return None;
    }

    method RecordInvocationUsage(run: Text, call: UsageCall) returns (reply: Result<UsageReply, StoreError>)
      modifies this
      ensures (Contents(), reply) == RecordUsage(rules, old(Contents()), run, call)
    {
      if !UsageArgumentsOk(rules, call) {
        return Err(BadValue);
      }
      var existing := FindUsage(usage, run, call.invocation);
      if existing.Some? {
        if !SameEvidence(existing.value, call) {
          return Err(Conflict);
        }
        if run !in runs {
          return Err(UnknownRun);
        }
        return Ok(UsageReply(existing.value, RoleTotal(runs[run].usage, call.role), true));
      }
      if run !in runs {
        return Err(UnknownRun);
      }
      var columns := runs[run].usage;
      if RoleTotal(columns, call.role).None? {
        return Err(Conflict);
      }
      if call.role == Worker && columns.workerSession.Some? && columns.workerSession.value != call.session {
        return Err(Conflict);
      }
      var tokens, cumulative := call.accounting.enforceable, columns.cumulative;
      if call.cumulative {
        if call.accounting.raw.providerTotal.None? || call.accounting.raw.providerTotal.value < cumulative {
          return Err(Conflict);
        }
        tokens := Some(call.accounting.raw.providerTotal.value - cumulative);
        cumulative := call.accounting.raw.providerTotal.value;
      }
      var roleTotal, total := RoleTotal(columns, call.role).value, columns.total;
      if tokens.Some? {
        roleTotal := roleTotal + tokens.value;
        total := total + tokens.value;
      }
      var row := UsageRow(run, call.invocation, call.role, call.session, call.digest, call.accounting.raw, tokens, BasisOf(call));
      usage := usage + [row];
      if call.role == Worker {
        columns := columns.(workerTotal := Some(roleTotal), workerSession := Some(call.session), workerDigest := Some(call.digest));
      } else {
        columns := columns.(reviewerTotal := Some(roleTotal), reviewerSession := Some(call.session), reviewerDigest := Some(call.digest));
      }
      columns := columns.(total := total, cumulative := cumulative);
      runs := runs[run := runs[run].(usage := columns)];
      return Ok(UsageReply(row, Some(roleTotal), false));
    }

    /** `_reactivate_claim_in_transaction`; a refusal rolls the caller's transaction back. */
    method ReactivateClaim(run: Text, task: TaskTerms, maxWorkers: int) returns (error: Option<StoreError>)
      modifies this`claims
      ensures match Reactivate(old(claims), run, task, maxWorkers)
              case Err(e) => error == Some(e) && claims == old(claims)
              case Ok(updated) => error == None && claims == updated
    {
      if !(1 <= maxWorkers <= 2) {
        return Some(Conflict);
      }
      var claim := FindClaim(claims, run);
      if claim.None? || claim.value.active || IssueClaimed(claims, task.repository, task.issue) || CountActive(claims) >= maxWorkers {
        return Some(Conflict);
      }
      claims := SetActive(claims, run, true);
      return None;
    }

    method Transition(run: Text, phase: RunPhase) returns (error: Option<StoreError>)
      modifies this
      ensures error == if run in old(runs) then None else Some(UnknownRun)
      ensures Contents() == After(rules, old(Contents()), CallTransition(run, phase))
    {
      if run !in runs {
        return Some(UnknownRun);
      }
      runs := runs[run := runs[run].(work := runs[run].work.(phase := phase))];
      return None;
    }

    /** `update_run` on the checkpoint columns, and on the worker session if one is given. */
    method UpdateRun(run: Text, work: WorkColumns, session: Option<Text>) returns (error: Option<StoreError>)
      modifies this
      ensures error == if run in old(runs) then None else Some(UnknownRun)
      ensures Contents() == After(rules, old(Contents()), CallUpdate(run, work, session))
    {
      if run !in runs {
        return Some(UnknownRun);
      }
      runs := runs[run := UpdatedRow(runs[run], work, session)];
      return None;
    }

    method RecordCiFixRequest(
      run: Text, expectedPhase: RunPhase, expectedHead: Sha, expectedRounds: nat, nextRound: nat, ciRun: nat)
      returns (error: Option<StoreError>)
      modifies this
      ensures (Contents(), error)
              == RecordCiFix(old(Contents()), run, expectedPhase, expectedHead, expectedRounds, nextRound, ciRun)
    {
      if expectedPhase !in {CiWaiting, BlockedRun} || nextRound != expectedRounds + 1 {
        return Some(BadValue);
      }
      if run !in runs {
        return Some(UnknownRun);
      }
      var row := runs[run];
      if !FixExpected(row.work, expectedPhase, expectedHead, expectedRounds) {
        return Some(Conflict);
      }
      if expectedPhase == BlockedRun {
        error := ReactivateClaim(run, row.task, row.maxWorkers);
        if error.Some? {
          return;
        }
      }
      runs := runs[run := row.(work := WithFix(row.work, nextRound, ciRun))];
      return None;
    }

    method RecoverBlockedCiPass(run: Text, expectedHead: Sha, ciRun: nat) returns (error: Option<StoreError>)
      modifies this
      ensures (Contents(), error) == RecoverBlocked(old(Contents()), run, expectedHead, ciRun)
    {
      if run !in runs {
        return Some(UnknownRun);
      }
      var row := runs[run];
      if row.work.phase != BlockedRun || row.work.desired != KeepRunning || row.work.head != Some(expectedHead) {
        return Some(Conflict);
      }
      error := ReactivateClaim(run, row.task, row.maxWorkers);
      if error.Some? {
        return;
      }
      runs := runs[run := row.(work := Recovered(row.work, ciRun))];
      return None;
    }

    method ReleaseClaim(run: Text)
      modifies this
      ensures Contents() == After(rules, old(Contents()), CallReleaseClaim(run))
    {
      if run in runs {
        claims := SetActive(claims, run, false);
      }
    }

    method AppendActivityEvent(row: ActivityRow, pin: Option<(Role, Text)>) returns (reply: Result<bool, StoreError>)
      modifies this
      ensures (Contents(), reply) == AppendActivity(old(Contents()), row, pin)
    {
      if row.run !in runs {
        return Err(if pin.Some? then UnknownRun else ConstraintFailed);
      }
      if pin.Some? {
        var persisted := SessionOf(runs[row.run].usage, pin.value.0);
        if persisted.Some? && persisted.value != pin.value.1 {
          return Err(Conflict);
        }
        runs := runs[row.run := runs[row.run].(usage := PinSession(runs[row.run].usage, pin.value.0, pin.value.1))];
      } else {
        assert runs[row.run := runs[row.run].(usage := runs[row.run].usage)] == runs;
      }
      if SourceTaken(activity, row.run, row.source) {
        return Ok(false);
      }
      activity := activity + [row];
      return Ok(true);
    }
  }
}
