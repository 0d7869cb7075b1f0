/** Whole lives of a controller and of a recoverer: what each leaves in the lease and agent columns when
    no other process steps in between. */
module RunnerLifecycles {
  import opened Common
  import opened RunnerModels
  import opened RunnerStore
  import opened RunnerLeases

  // ---------------------------------------------------------------------------------------------
  // Controllers

  /** A controller whose turn it is: its session, the columns of its run and its agent. */
  function Turn(w: World, row: Custody, token: Text, s: Session, agents: map<Text, AgentProc>): World {
    w.(row := row, sessions := w.sessions[token := s], agents := agents)
  }

  /** A controller that starts on a free run takes the lease under its own pid, identity and token. One that
      starts on a held run is refused and ends, and the holder keeps the run. */
  lemma LeaseIsTakenExactlyWhenFree(w: World, token: Text, pid: nat, identity: Text)
    requires token !in w.sessions && !IdentityUsed(w.sessions, identity)
    ensures var w' := Do(Do(w, SpawnController(token, pid, identity)), Acquire(token));
      w' == if w.row.lease.token.None? then
              Turn(w, w.row.(lease := LeaseColumns(Some(pid), Some(identity), Some(token))), token,
                   Session(pid, identity, true, Holding), w.agents)
            else Turn(w, w.row, token, Session(pid, identity, true, Over), w.agents)
  {
    hide IdentityUsed;
  }

  /** The controller holds the run, with no agent registered. */
  predicate HoldsFree(w: World, token: Text) {
    && token in w.sessions && w.sessions[token].alive && w.sessions[token].pc == Holding
    && w.row.lease == LeaseOf(token, w.sessions[token]) && w.row.agent == NO_AGENT
  }

  /** A holder that launches an agent registers the very process it spawned before the process may start. */
  lemma AgentIsLaunched(w: World, token: Text, agent: Text, agentPid: nat, path: Text, nonce: Text)
    requires HoldsFree(w, token) && agent !in w.agents
    ensures var registered := Do(Do(w, SpawnAgent(token, agent, agentPid)), Register(token, path, nonce));
      var row := w.row.(agent := AgentColumns(Some(agentPid), Some(agent), Some(path), Some(nonce)));
      && registered == Turn(w, row, token, w.sessions[token].(pc := Registered(agent)),
                            w.agents[agent := AgentProc(agentPid, false, true, false)])
      && Do(registered, StartAgent(token)) == Turn(w, row, token, w.sessions[token].(pc := Watching(agent)),
                                                   w.agents[agent := AgentProc(agentPid, true, true, false)])
  {
    var w1 := Turn(w, w.row, token, w.sessions[token].(pc := Spawned(agent)), w.agents[agent := AgentProc(agentPid, false, true, false)]);
    assert Do(w, SpawnAgent(token, agent, agentPid)) == w1;
    var row := w.row.(agent := AgentColumns(Some(agentPid), Some(agent), Some(path), Some(nonce)));
    var w2 := Turn(w, row, token, w.sessions[token].(pc := Registered(agent)), w.agents[agent := AgentProc(agentPid, false, true, false)]);
    assert Do(w1, Register(token, path, nonce)) == w2;
    var w3 := Turn(w, row, token, w.sessions[token].(pc := Watching(agent)), w.agents[agent := AgentProc(agentPid, true, true, false)]);
    assert Do(w2, StartAgent(token)) == w3;
  }

  /** The controller watches the agent that is registered under its lease. */
  predicate Watches(w: World, token: Text, agent: Text) {
    && token in w.sessions && w.sessions[token].alive && w.sessions[token].pc == Watching(agent)
    && w.row.lease == LeaseOf(token, w.sessions[token])
    && agent in w.agents && w.row.agent.pid == Some(w.agents[agent].pid) && w.row.agent.identity == Some(agent)
  }

  /** The registration is cleared exactly once the agent is dead and contained, and the holder can then give
      the lease back. */
  lemma AgentIsClearedExactlyWhenContained(w: World, token: Text, agent: Text)
    requires Watches(w, token, agent)
    ensures var w' := Do(w, AgentEnded(token));
      w' == if w.agents[agent].alive || !w.agents[agent].contained then w
            else Turn(w, w.row.(agent := NO_AGENT), token, w.sessions[token].(pc := Holding), w.agents)
  {
    assert w.sessions == w.sessions[token := w.sessions[token]];
  }

  /** An agent that has died is contained by its watchdog, and only then. */
  lemma DeadAgentIsContained(w: World, agent: Text)
    requires agent in w.agents && !w.agents[agent].contained
    ensures Do(w, AgentContained(agent)) ==
      if w.agents[agent].alive then w else w.(agents := w.agents[agent := w.agents[agent].(contained := true)])
    ensures Do(w, AgentExits(agent)) == w.(agents := w.agents[agent := w.agents[agent].(alive := false)])
  {
  }

  /** A holder gives the lease back; one that unwinds while its agent is registered keeps both on record, for
      a recovery to find. */
  lemma LeaseIsReturnedExactlyWithoutAgent(w: World, token: Text)
    requires token in w.sessions && w.sessions[token].alive && w.sessions[token].pc in {Holding, Unwinding}
    requires w.row.lease == LeaseOf(token, w.sessions[token])
    ensures Do(w, Release(token)) ==
      Turn(w, if w.row.agent.pid.None? then w.row.(lease := NO_LEASE) else w.row, token, w.sessions[token].(pc := Over), w.agents)
  {
  }

  /** From a free run back to a free run: a controller starts, launches one agent, sees it dead and contained,
      and ends. */
  lemma ControllerLeavesNoTrace(
    w: World, token: Text, pid: nat, identity: Text, agent: Text, agentPid: nat, path: Text, nonce: Text)
    requires w.row == FREE && token !in w.sessions && !IdentityUsed(w.sessions, identity) && agent !in w.agents
    ensures var holding := Do(Do(w, SpawnController(token, pid, identity)), Acquire(token));
      var started := Do(Do(Do(holding, SpawnAgent(token, agent, agentPid)), Register(token, path, nonce)), StartAgent(token));
      var contained := Do(Do(started, AgentExits(agent)), AgentContained(agent));
      var ended := Do(Do(contained, AgentEnded(token)), Release(token));
      && started.row == Custody(LeaseColumns(Some(pid), Some(identity), Some(token)),
                                AgentColumns(Some(agentPid), Some(agent), Some(path), Some(nonce)))
      && started.agents == w.agents[agent := AgentProc(agentPid, true, true, false)]
      && ended.row == FREE && ended.recoveries == w.recoveries
      && ended.sessions == w.sessions[token := Session(pid, identity, true, Over)]
      && ended.agents == w.agents[agent := AgentProc(agentPid, true, false, true)]
  {
    hide Do, IdentityUsed;
    LeaseIsTakenExactlyWhenFree(w, token, pid, identity);
    var holding := Do(Do(w, SpawnController(token, pid, identity)), Acquire(token));
    AgentIsLaunched(holding, token, agent, agentPid, path, nonce);
    var started := Do(Do(Do(holding, SpawnAgent(token, agent, agentPid)), Register(token, path, nonce)), StartAgent(token));
    DeadAgentIsContained(started, agent);
    var exited := Do(started, AgentExits(agent));
    DeadAgentIsContained(exited, agent);
    var contained := Do(exited, AgentContained(agent));
    AgentIsClearedExactlyWhenContained(contained, token, agent);
    LeaseIsReturnedExactlyWithoutAgent(Do(contained, AgentEnded(token)), token);
  }

  // ---------------------------------------------------------------------------------------------
  // Recoverers

  /** The next `n` steps of one recoverer. */
  ghost function Recovering(w: World, id: nat, n: nat): World
    decreases n
  {
    if n == 0 then w else Recovering(Do(w, Recover(id)), id, n - 1)
  }

  /** The recoverer stands here, with this snapshot, over these columns. */
  function Standing(w: World, row: Custody, id: nat, kind: RecoveryKind, seen: Custody, pc: RecoveryPc): World {
    w.(row := row, recoveries := w.recoveries[id := Recovery(kind, seen, pc)])
  }

  lemma Steps(w: World, row: Custody, id: nat, kind: RecoveryKind, seen: Custody, pc: RecoveryPc, row': Custody, pc': RecoveryPc, n: nat)
    requires RecoveryStep(Standing(w, row, id, kind, seen, pc), id) == Standing(w, row', id, kind, seen, pc')
    ensures Recovering(Standing(w, row, id, kind, seen, pc), id, n + 1) == Recovering(Standing(w, row', id, kind, seen, pc'), id, n)
  {
    hide RecoveryStep;
  }

  /** A recoverer that has ended stays where it is. */
  lemma {:induction false} EndedStays(w: World, row: Custody, id: nat, kind: RecoveryKind, seen: Custody, pc: RecoveryPc, n: nat)
    requires pc == Succeeded || pc == Failed
    ensures Recovering(Standing(w, row, id, kind, seen, pc), id, n) == Standing(w, row, id, kind, seen, pc)
  {
    hide ControllerLive, AgentLive, ContainmentConfirmed;
    if n > 0 {
      EndedStays(w, row, id, kind, seen, pc, n - 1);
    }
  }

  /** The controller that the lease names is dead, if it names one. */
  ghost predicate LeaseIsDead(w: World) {
    w.row.lease == NO_LEASE || (w.row.lease.token.Some? && w.row.lease.token.value in w.sessions && !w.sessions[w.row.lease.token.value].alive)
  }

  /** The registered agent is dead, and its watchdog has said that nothing of it lives. */
  predicate AgentIsGone(w: World) {
    && w.row.agent.identity.Some? && w.row.agent.identity.value in w.agents
    && !w.agents[w.row.agent.identity.value].alive && w.agents[w.row.agent.identity.value].contained
  }

  /** The lease columns are empty or complete. */
  predicate WholeLease(lease: LeaseColumns) {
    lease == NO_LEASE || (lease.pid.Some? && lease.identity.Some? && lease.token.Some?)
  }

  /** The last step: a lease that is still the one that was seen is dropped. */
  lemma LeaseIsDropped(w: World, row: Custody, id: nat, seen: Custody, n: nat)
    requires WholeLease(row.lease) && seen.lease == row.lease
    ensures Recovering(Standing(w, row, id, ClearStaleState, seen, ClearingLease), id, n + 1)
            == Standing(w, row.(lease := NO_LEASE), id, ClearStaleState, seen, Succeeded)
  {
    Steps(w, row, id, ClearStaleState, seen, ClearingLease, row.(lease := NO_LEASE), Succeeded, n);
    EndedStays(w, row.(lease := NO_LEASE), id, ClearStaleState, seen, Succeeded, n);
  }

  /** What a recoverer leaves once it has found the agent dead and contained. */
  lemma AgentIsDropped(w: World, id: nat, kind: RecoveryKind, n: nat)
    requires WholeLease(w.row.lease) && w.row.lease != NO_LEASE && w.row.agent.pid.Some? && w.row.agent.identity.Some?
    ensures Recovering(Standing(w, w.row, id, kind, w.row, ClearingAgent), id, n + 2) ==
      Standing(w, if kind == ClearStaleState then FREE else w.row.(agent := NO_AGENT), id, kind, w.row, Succeeded)
  {
    var row := w.row.(agent := NO_AGENT);
    Steps(w, w.row, id, kind, w.row, ClearingAgent, row, if kind == ClearStaleState then ClearingLease else Succeeded, n + 1);
    if kind == ClearStaleState {
      LeaseIsDropped(w, row, id, w.row, n);
    } else {
      EndedStays(w, row, id, kind, w.row, Succeeded, n + 1);
    }
  }

  /** What it makes of a registration that it has read. */
  lemma AgentIsChecked(w: World, id: nat, kind: RecoveryKind, n: nat)
    requires AgentsHold(w) && WholeLease(w.row.lease)
    ensures Recovering(Standing(w, w.row, id, kind, w.row, CheckingAgent), id, n + 4) ==
      if w.row.agent == NO_AGENT then
        Standing(w, if kind == ClearStaleState then FREE else w.row, id, kind, w.row, Succeeded)
      else if AgentIsGone(w) && w.row.lease != NO_LEASE then
        Standing(w, if kind == ClearStaleState then FREE else w.row.(agent := NO_AGENT), id, kind, w.row, Succeeded)
      else Standing(w, w.row, id, kind, w.row, Failed)
  {
    if w.row.agent == NO_AGENT {
      hide AgentsHold;
      NoAgentIsFound(w, id, kind, n);
    } else if w.agents[w.row.agent.identity.value].alive {
      Steps(w, w.row, id, kind, w.row, CheckingAgent, w.row, Failed, n + 3);
      EndedStays(w, w.row, id, kind, w.row, Failed, n + 3);
    } else {
      Steps(w, w.row, id, kind, w.row, CheckingAgent, w.row, CheckingContainment, n + 3);
      hide AgentsHold;
      ContainmentIsChecked(w, id, kind, n);
    }
  }

  lemma NoAgentIsFound(w: World, id: nat, kind: RecoveryKind, n: nat)
    requires WholeLease(w.row.lease) && w.row.agent == NO_AGENT
    ensures Recovering(Standing(w, w.row, id, kind, w.row, CheckingAgent), id, n + 4) ==
      Standing(w, if kind == ClearStaleState then FREE else w.row, id, kind, w.row, Succeeded)
  {
    if kind == ClearStaleState {
      Steps(w, w.row, id, kind, w.row, CheckingAgent, w.row, ClearingLease, n + 3);
      LeaseIsDropped(w, w.row, id, w.row, n + 2);
    } else {
      Steps(w, w.row, id, kind, w.row, CheckingAgent, w.row, Succeeded, n + 3);
      EndedStays(w, w.row, id, kind, w.row, Succeeded, n + 3);
    }
  }

  lemma ContainmentIsChecked(w: World, id: nat, kind: RecoveryKind, n: nat)
    requires WholeLease(w.row.lease) && w.row.agent.pid.Some? && w.row.agent.identity.Some?
    requires w.row.agent.identity.value in w.agents && !w.agents[w.row.agent.identity.value].alive
    ensures Recovering(Standing(w, w.row, id, kind, w.row, CheckingContainment), id, n + 3) ==
      if AgentIsGone(w) && w.row.lease != NO_LEASE then
        Standing(w, if kind == ClearStaleState then FREE else w.row.(agent := NO_AGENT), id, kind, w.row, Succeeded)
      else Standing(w, w.row, id, kind, w.row, Failed)
  {
    if AgentIsGone(w) && w.row.lease != NO_LEASE {
      Steps(w, w.row, id, kind, w.row, CheckingContainment, w.row, ClearingAgent, n + 2);
      AgentIsDropped(w, id, kind, n);
    } else {
      Steps(w, w.row, id, kind, w.row, CheckingContainment, w.row, Failed, n + 2);
      EndedStays(w, w.row, id, kind, w.row, Failed, n + 2);
    }
  }

  /** The process check of a controller is about the session the lease names. */
  lemma LiveIsTheHolder(w: World)
    requires UniqueIdentities(w.sessions) && LeasesHold(w) && w.row.lease != NO_LEASE
    ensures ControllerLive(w.sessions, w.row.lease.pid.value, w.row.lease.identity.value) <==> !LeaseIsDead(w)
  {
    var holder := w.row.lease.token.value;
    if w.sessions[holder].alive {
      assert w.sessions[holder].pid == w.row.lease.pid.value && w.sessions[holder].identity == w.row.lease.identity.value;
    }
  }

  lemma ControllerIsChecked(w: World, id: nat, n: nat)
    requires UniqueIdentities(w.sessions) && LeasesHold(w)
    ensures Recovering(Standing(w, w.row, id, ClearStaleState, w.row, CheckingController), id, n + 1) ==
      if LeaseIsDead(w) then Recovering(Standing(w, w.row, id, ClearStaleState, w.row, CheckingAgent), id, n)
      else Standing(w, w.row, id, ClearStaleState, w.row, Failed)
  {
    if w.row.lease != NO_LEASE {
      LiveIsTheHolder(w);
    }
    hide UniqueIdentities, ControllerLive;
    if LeaseIsDead(w) {
      Steps(w, w.row, id, ClearStaleState, w.row, CheckingController, w.row, CheckingAgent, n);
    } else {
      Steps(w, w.row, id, ClearStaleState, w.row, CheckingController, w.row, Failed, n);
      EndedStays(w, w.row, id, ClearStaleState, w.row, Failed, n);
    }
  }

  /** Exactly when a recovery succeeds, from any reachable columns, and exactly what it then clears. The
      cleanup before a launch frees a run whose controller is dead and whose agent, if one is registered, is
      dead and contained under that lease; the release of an idle run clears only such an agent. Any
      other recovery fails and changes nothing. */
  lemma RecoverySucceedsExactly(schedule: seq<Step>, id: nat, kind: RecoveryKind)
    requires id !in Run(schedule).recoveries
    ensures var w := Run(schedule);
      var w' := Recovering(Do(w, Recoverer(id, kind)), id, 6);
      var idle := w.row.agent == NO_AGENT || (AgentIsGone(w) && w.row.lease != NO_LEASE);
      && (kind == ClearStaleState ==>
            w' == if LeaseIsDead(w) && idle then Standing(w, FREE, id, kind, w.row, Succeeded)
                  else Standing(w, w.row, id, kind, w.row, Failed))
      && (kind == ReleaseIfIdle ==>
            w' == if idle then Standing(w, w.row.(agent := NO_AGENT), id, kind, w.row, Succeeded)
                  else Standing(w, w.row, id, kind, w.row, Failed))
  {
    hide Run, Do, Inv, LeaseIsDead, AgentIsGone, Recovering, RecoveryHolds, UniqueIdentities, LeasesHold, AgentsHold, Standing;
    EveryRunHolds(schedule);
    var w := Run(schedule);
    InvUnfolds(w);
    if kind == ClearStaleState {
      CleanupRuns(w, id);
    } else {
      ReleaseRuns(w, id);
    }
  }

  lemma CleanupRuns(w: World, id: nat)
    requires UniqueIdentities(w.sessions) && LeasesHold(w) && AgentsHold(w) && id !in w.recoveries
    ensures Recovering(Do(w, Recoverer(id, ClearStaleState)), id, 6) ==
      if LeaseIsDead(w) && (w.row.agent == NO_AGENT || (AgentIsGone(w) && w.row.lease != NO_LEASE)) then
        Standing(w, FREE, id, ClearStaleState, w.row, Succeeded)
      else Standing(w, w.row, id, ClearStaleState, w.row, Failed)
  {
    hide UniqueIdentities, AgentsHold, LeasesHold, LeaseIsDead, AgentIsGone, Recovering, Do, WholeLease, Standing;
    RecovererStarts(w, id, ClearStaleState);
    LeaseIsWhole(w);
    ReadsItsSnapshot(w, id, ClearStaleState, CheckingController);
    ControllerIsChecked(w, id, 4);
    AgentIsChecked(w, id, ClearStaleState, 0);
  }

  lemma ReleaseRuns(w: World, id: nat)
    requires LeasesHold(w) && AgentsHold(w) && id !in w.recoveries
    ensures Recovering(Do(w, Recoverer(id, ReleaseIfIdle)), id, 6) ==
      if w.row.agent == NO_AGENT || (AgentIsGone(w) && w.row.lease != NO_LEASE) then
        Standing(w, w.row.(agent := NO_AGENT), id, ReleaseIfIdle, w.row, Succeeded)
      else Standing(w, w.row, id, ReleaseIfIdle, w.row, Failed)
  {
    hide AgentsHold, LeasesHold, AgentIsGone, Recovering, Do, WholeLease, Standing;
    RecovererStarts(w, id, ReleaseIfIdle);
    LeaseIsWhole(w);
    ReadsItsSnapshot(w, id, ReleaseIfIdle, CheckingAgent);
    AgentIsChecked(w, id, ReleaseIfIdle, 1);
    assert w.row.agent == NO_AGENT ==> w.row.(agent := NO_AGENT) == w.row;
  }

  lemma RecovererStarts(w: World, id: nat, kind: RecoveryKind)
    requires id !in w.recoveries
    ensures Do(w, Recoverer(id, kind)) == Standing(w, w.row, id, kind, FREE, Reading)
  {
  }

  lemma LeaseIsWhole(w: World)
    requires LeasesHold(w)
    ensures WholeLease(w.row.lease)
  {
  }

  lemma ReadsItsSnapshot(w: World, id: nat, kind: RecoveryKind, pc: RecoveryPc)
    requires pc == if kind == ClearStaleState then CheckingController else CheckingAgent
    ensures Recovering(Standing(w, w.row, id, kind, FREE, Reading), id, 6) == Recovering(Standing(w, w.row, id, kind, w.row, pc), id, 5)
  {
    var w1 := Standing(w, w.row, id, kind, FREE, Reading);
    assert Do(w1, Recover(id)) == Standing(w, w.row, id, kind, w.row, pc);
  }
}