/** The token ledger over every history of store calls, replays anywhere. */
module RunnerLedger {
  import opened Common
  import opened RunnerModels
  import opened RunnerStore

  function Tokens(row: UsageRow): int {
    if row.enforceable.Some? then row.enforceable.value else 0
  }

  /** The enforceable tokens of one role's records of one run. */
  function RoleSum(rows: seq<UsageRow>, run: Text, role: Role): int {
    if rows == [] then 0
    else
      var last := rows[|rows| - 1];
      RoleSum(rows[..|rows| - 1], run, role) + (if last.run == run && last.role == role then Tokens(last) else 0)
  }

  predicate IsCumulative(row: UsageRow, run: Text) {
    row.run == run && row.basis == ProviderCumulative && row.raw.providerTotal.Some?
  }

  /** What the cumulative records of one run were charged in all. */
  function CumulativeSum(rows: seq<UsageRow>, run: Text): int {
    if rows == [] then 0
    else
      var last := rows[|rows| - 1];
      CumulativeSum(rows[..|rows| - 1], run) + (if IsCumulative(last, run) then Tokens(last) else 0)
  }

  /** The provider total of the last cumulative record of one run. */
  function LastProviderTotal(rows: seq<UsageRow>, run: Text): nat {
    if rows == [] then 0
    else
      var last := rows[|rows| - 1];
      if IsCumulative(last, run) then last.raw.providerTotal.value else LastProviderTotal(rows[..|rows| - 1], run)
  }

  /** The columns of a run say what its records say. */
  ghost predicate Balanced(u: UsageColumns, rows: seq<UsageRow>, run: Text) {
    && u.workerTotal == Some(RoleSum(rows, run, Worker))
    && u.reviewerTotal == Some(RoleSum(rows, run, Reviewer))
    && u.total == RoleSum(rows, run, Worker) + RoleSum(rows, run, Reviewer)
    && u.cumulative == CumulativeSum(rows, run) == LastProviderTotal(rows, run)
  }

  ghost predicate OneRecordPerInvocation(rows: seq<UsageRow>) {
    forall i, j :: 0 <= i < j < |rows| ==> rows[i].run != rows[j].run || rows[i].invocation != rows[j].invocation
  }

  ghost predicate LedgerInv(db: Db) {
    && OneRecordPerInvocation(db.usage)
    && (forall row :: row in db.usage ==> row.run in db.runs)
    && (forall run :: run in db.runs ==> Balanced(db.runs[run].usage, db.usage, run))
  }

  lemma {:induction false} NoRecordsNoTokens(rows: seq<UsageRow>, run: Text)
    requires forall row :: row in rows ==> row.run != run
    ensures RoleSum(rows, run, Worker) == 0 && RoleSum(rows, run, Reviewer) == 0
    ensures CumulativeSum(rows, run) == 0 && LastProviderTotal(rows, run) == 0
  {
    if rows != [] {
      NoRecordsNoTokens(rows[..|rows| - 1], run);
    }
  }

  /** One more record moves each total of its run by exactly its own charge, and no other run's. */
  lemma AppendedRecord(u: UsageColumns, rows: seq<UsageRow>, run: Text, call: UsageCall)
    requires Balanced(u, rows, run) && UsageRefusal(u, call).None?
    ensures Balanced(Charged(u, call), rows + [NewUsageRow(run, u, call)], run)
    ensures u.cumulative <= Charged(u, call).cumulative
  {
    var rows' := rows + [NewUsageRow(run, u, call)];
    assert rows'[..|rows'| - 1] == rows;
    hide ValidAccounting;
  }

  lemma OtherRunBalanced(u: UsageColumns, rows: seq<UsageRow>, run: Text, row: UsageRow)
    requires Balanced(u, rows, run) && row.run != run
    ensures Balanced(u, rows + [row], run)
  {
    assert (rows + [row])[..|rows|] == rows;
  }

  lemma UsageKeepsLedger(rules: StoreRules, db: Db, run: Text, call: UsageCall)
    requires LedgerInv(db)
    ensures LedgerInv(RecordUsage(rules, db, run, call).0)
  {
    var (db', reply) := RecordUsage(rules, db, run, call);
    if reply.Ok? && !reply.value.replayed {
      var row := NewUsageRow(run, db.runs[run].usage, call);
      assert db'.usage == db.usage + [row];
      assert OneRecordPerInvocation(db'.usage);
      hide OneRecordPerInvocation, Charged;
      AppendedRecord(db.runs[run].usage, db.usage, run, call);
      forall other | other in db'.runs ensures Balanced(db'.runs[other].usage, db'.usage, other) {
        if other != run {
          OtherRunBalanced(db.runs[other].usage, db.usage, other, row);
        }
      }
    }
  }

  /** A call that touches neither the records nor the totals. */
  lemma UntouchedLedger(db: Db, db': Db, run: Text)
    requires LedgerInv(db) && db'.usage == db.usage && run in db.runs
    requires run in db'.runs && db'.runs == db.runs[run := db'.runs[run]]
    requires Balanced(db.runs[run].usage, db.usage, run) ==> Balanced(db'.runs[run].usage, db.usage, run)
    ensures LedgerInv(db')
  {
  }

  lemma OtherCallsKeepTotals(rules: StoreRules, db: Db, c: StoreCall)
    requires c.run in db.runs && !c.CallCreate? && !c.CallUsage?
    ensures var db' := After(rules, db, c);
      && db'.usage == db.usage && c.run in db'.runs && db'.runs == db.runs[c.run := db'.runs[c.run]]
      && var u, u' := db.runs[c.run].usage, db'.runs[c.run].usage;
      && u' == u.(workerSession := u'.workerSession, reviewerSession := u'.reviewerSession)
  {
    assert db.runs == db.runs[c.run := db.runs[c.run]];
  }

  lemma CallKeepsLedger(rules: StoreRules, db: Db, c: StoreCall)
    requires LedgerInv(db)
    ensures LedgerInv(After(rules, db, c))
  {
    if c.CallCreate? {
      NoRecordsNoTokensYet(db, c.run);
    } else if c.run in db.runs {
      hide LedgerInv;
      if c.CallUsage? {
        UsageKeepsLedger(rules, db, c.run, c.usage);
      } else {
        OtherCallsKeepTotals(rules, db, c);
        UntouchedLedger(db, After(rules, db, c), c.run);
      }
    }
  }

  lemma NoRecordsNoTokensYet(db: Db, run: Text)
    requires LedgerInv(db)
    ensures run !in db.runs ==> Balanced(NO_USAGE, db.usage, run)
  {
    if run !in db.runs {
      NoRecordsNoTokens(db.usage, run);
    }
  }

  /** In every state any history can reach: each role total is the sum of its records' enforceable
      tokens, the run total is both together, the charges of cumulative records telescope to the last
      provider total, and an invocation has at most one record. */
  lemma {:induction false} LedgerBalances(rules: StoreRules, history: seq<StoreCall>)
    ensures LedgerInv(Replayed(rules, history))
  {
    if history != [] {
      LedgerBalances(rules, history[..|history| - 1]);
      CallKeepsLedger(rules, Replayed(rules, history[..|history| - 1]), history[|history| - 1]);
    }
  }

  /** No total is lower, and the cumulative high-water mark is not either. */
  predicate NeverLower(u: UsageColumns, u': UsageColumns) {
    && u.cumulative <= u'.cumulative && u.total <= u'.total
    && u.workerTotal.Some? && u'.workerTotal.Some? && u.workerTotal.value <= u'.workerTotal.value
    && u.reviewerTotal.Some? && u'.reviewerTotal.Some? && u.reviewerTotal.value <= u'.reviewerTotal.value
  }

  lemma ChargeRaises(u: UsageColumns, rows: seq<UsageRow>, run: Text, call: UsageCall)
    requires Balanced(u, rows, run) && UsageRefusal(u, call).None? && ValidAccounting(call.accounting)
    ensures NeverLower(u, Charged(u, call))
  {
    hide RoleSum, CumulativeSum, LastProviderTotal;
  }

  lemma BalancedIsNeverLower(u: UsageColumns, rows: seq<UsageRow>, run: Text)
    requires Balanced(u, rows, run)
    ensures NeverLower(u, u)
  {
  }

  lemma UsageRaises(rules: StoreRules, db: Db, run: Text, call: UsageCall)
    requires run in db.runs && Balanced(db.runs[run].usage, db.usage, run) && ValidAccounting(call.accounting)
    ensures run in RecordUsage(rules, db, run, call).0.runs
    ensures NeverLower(db.runs[run].usage, RecordUsage(rules, db, run, call).0.runs[run].usage)
  {
    BalancedIsNeverLower(db.runs[run].usage, db.usage, run);
    if UsageRefusal(db.runs[run].usage, call).None? {
      ChargeRaises(db.runs[run].usage, db.usage, run, call);
    }
    hide NeverLower, Balanced, Charged, UsageRefusal, NewUsageRow, ValidAccounting;
  }

  /** Totals and the cumulative high-water mark never fall for honest accounting values. */
  lemma TotalsNeverFall(rules: StoreRules, db: Db, c: StoreCall, run: Text)
    requires LedgerInv(db) && run in db.runs
    requires c.CallUsage? ==> ValidAccounting(c.usage.accounting)
    ensures run in After(rules, db, c).runs
    ensures NeverLower(db.runs[run].usage, After(rules, db, c).runs[run].usage)
  {
    assert Balanced(db.runs[run].usage, db.usage, run);
    BalancedIsNeverLower(db.runs[run].usage, db.usage, run);
    hide NeverLower, Balanced, RecordUsage, LedgerInv;
    if c.CallUsage? {
      if c.run == run {
        UsageRaises(rules, db, run, c.usage);
      } else {
        OtherRunsKeep(rules, db, c, run);
      }
    } else if !c.CallCreate? && c.run in db.runs {
      OtherCallsKeepTotals(rules, db, c);
      if c.run != run {
        OtherRunsKeep(rules, db, c, run);
      }
    }
  }

  /** A call concerns one run. */
  lemma OtherRunsKeep(rules: StoreRules, db: Db, c: StoreCall, run: Text)
    requires run in db.runs && run != c.run
    ensures run in After(rules, db, c).runs && After(rules, db, c).runs[run] == db.runs[run]
  {
    hide UsageRefusal, Charged, NewUsageRow, Reactivate;
  }

  // ---------------------------------------------------------------------------------------------
  // Replays

  lemma {:induction false} FindUsageKeeps(rows: seq<UsageRow>, more: seq<UsageRow>, run: Text, invocation: Text)
    requires FindUsage(rows, run, invocation).Some?
    ensures FindUsage(rows + more, run, invocation) == FindUsage(rows, run, invocation)
  {
    if !(rows[0].run == run && rows[0].invocation == invocation) {
      FindUsageKeeps(rows[1..], more, run, invocation);
      assert (rows + more)[1..] == rows[1..] + more;
    }
    assert (rows + more)[0] == rows[0];
  }

  lemma {:induction false} FindAppended(rows: seq<UsageRow>, row: UsageRow)
    requires FindUsage(rows, row.run, row.invocation).None?
    ensures FindUsage(rows + [row], row.run, row.invocation) == Some(row)
  {
    if rows != [] {
      FindAppended(rows[1..], row);
      assert (rows + [row])[1..] == rows[1..] + [row];
      assert (rows + [row])[0] == rows[0];
    }
  }

  /** The record that makes a call a replay. */
  ghost predicate Recorded(db: Db, run: Text, call: UsageCall, row: UsageRow) {
    && run in db.runs
    && FindUsage(db.usage, run, call.invocation) == Some(row)
    && SameEvidence(row, call)
  }

  lemma AcceptedIsRecorded(rules: StoreRules, db: Db, run: Text, call: UsageCall)
    requires RecordUsage(rules, db, run, call).1.Ok?
    ensures var (db', reply) := RecordUsage(rules, db, run, call);
      Recorded(db', run, call, reply.value.row)
  {
    if FindUsage(db.usage, run, call.invocation).None? {
      FindAppended(db.usage, NewUsageRow(run, db.runs[run].usage, call));
    }
  }

  lemma RecordsStay(rules: StoreRules, db: Db, c: StoreCall, run: Text, call: UsageCall, row: UsageRow)
    requires Recorded(db, run, call, row)
    ensures Recorded(After(rules, db, c), run, call, row)
  {
    var db' := After(rules, db, c);
    if c.CallUsage? && c.run in db.runs && db'.usage != db.usage {
      FindUsageKeeps(db.usage, [NewUsageRow(c.run, db.runs[c.run].usage, c.usage)], run, call.invocation);
    } else if !c.CallCreate? && !c.CallUsage? && c.run in db.runs {
      OtherCallsKeepTotals(rules, db, c);
    }
  }

  lemma {:induction false} RecordsStayForever(
    rules: StoreRules, before: seq<StoreCall>, more: seq<StoreCall>, run: Text, call: UsageCall, row: UsageRow)
    requires Recorded(Replayed(rules, before), run, call, row)
    ensures Recorded(Replayed(rules, before + more), run, call, row)
  {
    hide Replayed, Recorded, After;
    if more == [] {
      assert before + more == before;
    } else {
      var front, c := more[..|more| - 1], more[|more| - 1];
      RecordsStayForever(rules, before, front, run, call, row);
      ReplayedOn(rules, before + front, c);
      assert before + more == before + front + [c];
      RecordsStay(rules, Replayed(rules, before + front), c, run, call, row);
    }
  }

  /** Once a call was accepted, repeating it after any further history is answered with the same
      record and changes nothing. */
  lemma ReplayChangesNothing(
    rules: StoreRules, before: seq<StoreCall>, more: seq<StoreCall>, run: Text, call: UsageCall)
    requires RecordUsage(rules, Replayed(rules, before), run, call).1.Ok?
    ensures var first := RecordUsage(rules, Replayed(rules, before), run, call).1.value;
      var db := Replayed(rules, before + [CallUsage(run, call)] + more);
      var (db', again) := RecordUsage(rules, db, run, call);
      db' == db && again.Ok? && again.value.row == first.row && again.value.replayed
  {
    hide Replayed;
    var first := RecordUsage(rules, Replayed(rules, before), run, call).1.value;
    AcceptedIsRecorded(rules, Replayed(rules, before), run, call);
    ReplayedOn(rules, before, CallUsage(run, call));
    assert run in Replayed(rules, before).runs;
    RecordsStayForever(rules, before + [CallUsage(run, call)], more, run, call, first.row);
  }

  lemma ReplayedOn(rules: StoreRules, history: seq<StoreCall>, c: StoreCall)
    ensures Replayed(rules, history + [c]) == After(rules, Replayed(rules, history), c)
  {
    hide After;
    assert (history + [c])[..|history|] == history;
  }

  /** Equal tables stay equal under equal calls. */
  lemma {:induction false} SameFuture(rules: StoreRules, left: seq<StoreCall>, right: seq<StoreCall>, rest: seq<StoreCall>)
    requires Replayed(rules, left) == Replayed(rules, right)
    ensures Replayed(rules, left + rest) == Replayed(rules, right + rest)
  {
    hide After, Replayed;
    if rest == [] {
      assert left + rest == left && right + rest == right;
    } else {
      var front, c := rest[..|rest| - 1], rest[|rest| - 1];
      SameFuture(rules, left, right, front);
      ReplayedOn(rules, left + front, c);
      ReplayedOn(rules, right + front, c);
      assert left + rest == left + front + [c] && right + rest == right + front + [c];
    }
  }

  /** So a history with the replay and the history without it end in the same tables. */
  lemma ReplaysAreInvisible(
    rules: StoreRules, before: seq<StoreCall>, more: seq<StoreCall>, rest: seq<StoreCall>, run: Text, call: UsageCall)
    requires RecordUsage(rules, Replayed(rules, before), run, call).1.Ok?
    ensures Replayed(rules, before + [CallUsage(run, call)] + more + [CallUsage(run, call)] + rest)
            == Replayed(rules, before + [CallUsage(run, call)] + more + rest)
  {
    hide Replayed, RecordUsage;
    var c := CallUsage(run, call);
    var prefix := before + [c] + more;
    ReplayChangesNothing(rules, before, more, run, call);
    ReplayedOn(rules, prefix, c);
    SameFuture(rules, prefix + [c], prefix, rest);
  }

  // ---------------------------------------------------------------------------------------------
  // Exactly what a call records

  /** The evidence of a call matches the record of its invocation; what a cumulative record was charged is
      not part of it. */
  predicate Matches(row: UsageRow, call: UsageCall) {
    && row.role == call.role && row.session == call.session && row.digest == call.digest
    && row.raw == call.accounting.raw
    && row.basis == (if call.cumulative then ProviderCumulative
                     else if call.accounting.enforceable.Some? then CodexComponents else Unavailable)
    && (!call.cumulative ==> row.enforceable == call.accounting.enforceable)
  }

  predicate OnRecord(row: UsageRow, run: Text, invocation: Text) { row.run == run && row.invocation == invocation }

  /** Exactly when a call is accepted: with sound arguments for a known run, and either its invocation is on
      record with the same evidence, or it is new, keeps the worker's session, and a cumulative total is
      reported and no lower than the last. */
  lemma RecordIsAcceptedExactly(rules: StoreRules, db: Db, run: Text, call: UsageCall)
    requires LedgerInv(db)
    ensures RecordUsage(rules, db, run, call).1.Ok? <==>
      && call.invocation in rules.invocationIds && call.digest in rules.digests && call.session != rules.empty
      && (call.cumulative ==> call.role == Worker)
      && run in db.runs
      && (forall row :: row in db.usage && OnRecord(row, run, call.invocation) ==> Matches(row, call))
      && ((forall row :: row in db.usage ==> !OnRecord(row, run, call.invocation)) ==>
            && (call.role == Worker && db.runs[run].usage.workerSession.Some? ==> db.runs[run].usage.workerSession == Some(call.session))
            && (call.cumulative ==>
                  && call.accounting.raw.providerTotal.Some?
                  && call.accounting.raw.providerTotal.value >= db.runs[run].usage.cumulative))
  {
    hide Charged, NewUsageRow, RoleSum, CumulativeSum, LastProviderTotal;
    if run in db.runs {
      assert Balanced(db.runs[run].usage, db.usage, run);
    }
    var found := FindUsage(db.usage, run, call.invocation);
    if found.Some? {
      assert OnRecord(found.value, run, call.invocation);
      OneRecordIsFound(db.usage, run, call.invocation, found.value);
      assert SameEvidence(found.value, call) <==> Matches(found.value, call);
    }
    hide LedgerInv;
  }

  lemma OneRecordIsFound(rows: seq<UsageRow>, run: Text, invocation: Text, row: UsageRow)
    requires OneRecordPerInvocation(rows) && row in rows && row.run == run && row.invocation == invocation
    ensures forall other :: other in rows && other.run == run && other.invocation == invocation ==> other == row
  {
    var i :| 0 <= i < |rows| && rows[i] == row;
    forall other | other in rows && other.run == run && other.invocation == invocation ensures other == row {
      var j :| 0 <= j < |rows| && rows[j] == other;
    }
  }

  /** What a new record is charged. */
  function Price(u: UsageColumns, call: UsageCall): Option<int> {
    if call.cumulative && call.accounting.raw.providerTotal.Some? then Some(call.accounting.raw.providerTotal.value - u.cumulative)
    else call.accounting.enforceable
  }

  /** What an accepted new call leaves: one record with its evidence and its price, the price added to its
      role's total and to the run's, its session and digest on the run, a cumulative total kept as the new
      mark, and nothing else changed; a refused call changes nothing at all. */
  lemma RecordIsExact(rules: StoreRules, db: Db, run: Text, call: UsageCall)
    ensures var (db', reply) := RecordUsage(rules, db, run, call);
      && (reply.Err? || reply.value.replayed ==> db' == db)
      && (reply.Ok? && !reply.value.replayed ==>
            && run in db.runs && run in db'.runs
            && var u, u', price := db.runs[run].usage, db'.runs[run].usage, Price(db.runs[run].usage, call);
            && var tokens := if price.Some? then price.value else 0;
            && db' == db.(
                 runs := db.runs[run := db.runs[run].(usage := u')],
                 usage := db.usage + [UsageRow(
                   run, call.invocation, call.role, call.session, call.digest, call.accounting.raw, price,
                   if call.cumulative then ProviderCumulative
                   else if call.accounting.enforceable.Some? then CodexComponents else Unavailable)])
            && u'.total == u.total + tokens
            && u'.cumulative == (if call.cumulative then call.accounting.raw.providerTotal.value else u.cumulative)
            && (call.role == Worker ==>
                  && u.workerTotal.Some? && u'.workerTotal == Some(u.workerTotal.value + tokens) == reply.value.roleTotal
                  && u'.workerSession == Some(call.session) && u'.workerDigest == Some(call.digest)
                  && u'.reviewerTotal == u.reviewerTotal && u'.reviewerSession == u.reviewerSession
                  && u'.reviewerDigest == u.reviewerDigest)
            && (call.role == Reviewer ==>
                  && u.reviewerTotal.Some? && u'.reviewerTotal == Some(u.reviewerTotal.value + tokens) == reply.value.roleTotal
                  && u'.reviewerSession == Some(call.session) && u'.reviewerDigest == Some(call.digest)
                  && u'.workerTotal == u.workerTotal && u'.workerSession == u.workerSession
                  && u'.workerDigest == u.workerDigest))
  {
  }

  // ---------------------------------------------------------------------------------------------
  // Sessions

  /** Accounting and live activity never replace a worker session. A reviewer session is replaced
      exactly by a new, accepted reviewer record of another session. */
  lemma OnlyWorkerSessionIsProtected(rules: StoreRules, db: Db, c: StoreCall, run: Text)
    requires run in db.runs && !(c.CallUpdate? && c.session.Some?)
    ensures var u, u' := db.runs[run].usage, After(rules, db, c).runs[run].usage;
      && (u.workerSession.Some? ==> u'.workerSession == u.workerSession)
      && (u.reviewerSession.Some? ==>
            (u'.reviewerSession != u.reviewerSession <==>
               && c.CallUsage? && c.run == run && c.usage.role == Reviewer
               && RecordUsage(rules, db, run, c.usage).1.Ok? && !RecordUsage(rules, db, run, c.usage).1.value.replayed
               && c.usage.session != u.reviewerSession.value))
  {
  }

  // ---------------------------------------------------------------------------------------------
  // Normalisation

  /** The raw columns are the reported ones, and nothing is filled in. */
  predicate KeepsReport(raw: RawUsage, usage: Usage) {
    && raw.rawInput == usage.rawInput && raw.cachedInput == usage.cachedInput && raw.rawOutput == usage.rawOutput
    && raw.reasoning == usage.reasoning && raw.providerTotal == usage.providerTotal
  }

  /** What `normalize_codex` and `normalize_cumulative_provider` build always passes the independent
      validator and keeps every reported value. Tokens are enforced exactly when every component was reported,
      as input that was not cached plus output; a cumulative report enforces none by itself. */
  lemma NormalizedUsageIsValid(usage: Usage)
    requires usage.Valid()
    ensures ValidAccounting(usage.NormalizeCodex()) && ValidAccounting(usage.NormalizeCumulative())
    ensures KeepsReport(usage.NormalizeCodex().raw, usage) && KeepsReport(usage.NormalizeCumulative().raw, usage)
    ensures var complete := usage.rawInput.Some? && usage.cachedInput.Some? && usage.rawOutput.Some? && usage.reasoning.Some?;
      var nothing := usage == Usage(None, None, None, None, None);
      && usage.NormalizeCodex().enforceable
         == (if complete then Some(usage.rawInput.value - usage.cachedInput.value + usage.rawOutput.value) else None)
      && usage.NormalizeCodex().raw.state == (if complete then Complete else if nothing then UnknownUsage else Partial)
      && usage.NormalizeCumulative().raw.state == (if nothing then UnknownUsage else Partial)
    ensures usage.NormalizeCumulative().enforceable.None?
  {
  }
}
