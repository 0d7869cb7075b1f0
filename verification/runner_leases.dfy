/** Who controls a run: controllers that may die at any point, the agent processes they launch, and
    any number of recoverers with stale snapshots, over the lease and agent columns of one run. */
module RunnerLeases {
  import opened Common
  import opened RunnerModels
  import opened RunnerStore

  /** Where one controller process stands. `Unwinding` is past an exception, on the way to giving the
      lease back. */
  datatype SessionPc =
    | Starting
    | Holding
    | Spawned(agent: Text)
    | Registered(agent: Text)
    | Watching(agent: Text)
    | Unwinding
    | Over

  /** A controller process, keyed by its lease token. */
  datatype Session = Session(pid: nat, identity: Text, alive: bool, pc: SessionPc)

  /** A launcher process, keyed by its identity. `started` is past the registration barrier;
      `contained` is the watchdog's acknowledgement that no descendant lives. */
  datatype AgentProc = AgentProc(pid: nat, started: bool, alive: bool, contained: bool)

  /** `_clear_stale_process_state`, or the agent part of `_release_claim_if_agent_idle`. */
  datatype RecoveryKind = ClearStaleState | ReleaseIfIdle

  datatype RecoveryPc =
    | Reading
    | CheckingController
    | CheckingAgent
    | CheckingContainment
    | ClearingAgent
    | ClearingLease
    | Succeeded
    | Failed

  datatype Recovery = Recovery(kind: RecoveryKind, seen: Custody, pc: RecoveryPc)

  datatype World = World(
    row: Custody,
    sessions: map<Text, Session>,
    agents: map<Text, AgentProc>,
    recoveries: map<nat, Recovery>)

  const QUIET := World(FREE, map[], map[], map[])

  datatype Step =
    | SpawnController(token: Text, pid: nat, identity: Text)
    | Acquire(token: Text)
    | SpawnAgent(token: Text, agent: Text, agentPid: nat)
    | Register(token: Text, completionPath: Text, nonce: Text)
    | StartAgent(token: Text)
    | AgentEnded(token: Text)
    | GiveUp(token: Text)
    | Release(token: Text)
    | Crash(token: Text)
    | AgentExits(agent: Text)
    | AgentContained(agent: Text)
    | Recoverer(id: nat, kind: RecoveryKind)
    | Recover(id: nat)

  ghost predicate IdentityUsed(sessions: map<Text, Session>, identity: Text) {
    exists k :: k in sessions && sessions[k].identity == identity
  }

  /** `process_matches` for a controller: that very incarnation is still running. */
  ghost predicate ControllerLive(sessions: map<Text, Session>, pid: nat, identity: Text) {
    exists k :: k in sessions && sessions[k].alive && sessions[k].pid == pid && sessions[k].identity == identity
  }

  predicate AgentLive(agents: map<Text, AgentProc>, pid: nat, identity: Text) {
    identity in agents && agents[identity].pid == pid && agents[identity].alive
  }

  predicate ContainmentConfirmed(agents: map<Text, AgentProc>, identity: Text) {
    identity in agents && agents[identity].contained
  }

  function SessionAt(w: World, token: Text, pc: SessionPc): World
    requires token in w.sessions
  {
    w.(sessions := w.sessions[token := w.sessions[token].(pc := pc)])
  }

  /** A step of a live controller. */
  function ControllerStep(w: World, step: Step): World
    requires step.Acquire? || step.SpawnAgent? || step.Register? || step.StartAgent? || step.AgentEnded? || step.GiveUp? || step.Release? || step.Crash?
    requires step.token in w.sessions && w.sessions[step.token].alive
  {
    var k := step.token;
    var s := w.sessions[k];
    match step
    case Acquire(_) =>
      if !s.pc.Starting? then w
      else
        (match AcquireLease(w.row, s.pid, s.identity, k)
         case Ok(row) => SessionAt(w.(row := row), k, Holding)
         case Err(_) => SessionAt(w, k, Over))
    case SpawnAgent(_, agent, pid) =>
      if !s.pc.Holding? || agent in w.agents then w
      else SessionAt(w.(agents := w.agents[agent := AgentProc(pid, false, true, false)]), k, Spawned(agent))
    case Register(_, path, nonce) =>
      if !s.pc.Spawned? || s.pc.agent !in w.agents then w
      else
        var agent := AgentColumns(Some(w.agents[s.pc.agent].pid), Some(s.pc.agent), Some(path), Some(nonce));
        (match RegisterAgent(w.row, k, agent)
         case Ok(row) => SessionAt(w.(row := row), k, Registered(s.pc.agent))
         case Err(_) => SessionAt(w, k, Unwinding))
    case StartAgent(_) =>
      if !s.pc.Registered? || s.pc.agent !in w.agents then w
      else
        var a := w.agents[s.pc.agent];
        SessionAt(w.(agents := w.agents[s.pc.agent := a.(started := a.started || a.alive)]), k, Watching(s.pc.agent))
    case AgentEnded(_) =>
      if !(s.pc.Registered? || s.pc.Watching?) || s.pc.agent !in w.agents then w
      else
        var a := w.agents[s.pc.agent];
        if a.alive || !a.contained then w
        else if w.row.agent.identity != Some(s.pc.agent) then SessionAt(w, k, Unwinding)
        else SessionAt(w.(row := ForgetAgent(w.row, k, a.pid, s.pc.agent)), k, Holding)
    case GiveUp(_) => if s.pc.Starting? || s.pc.Over? then w else SessionAt(w, k, Unwinding)
    case Release(_) =>
      if !s.pc.Holding? && !s.pc.Unwinding? then w
      else
        (match ReleaseLease(w.row, k)
         case Ok(row) => SessionAt(w.(row := row), k, Over)
         case Err(_) => SessionAt(w, k, Over))
    case Crash(_) => w.(sessions := w.sessions[k := s.(alive := false)])
  }

  function RecoveryAt(w: World, id: nat, pc: RecoveryPc): World
    requires id in w.recoveries
  {
    w.(recoveries := w.recoveries[id := w.recoveries[id].(pc := pc)])
  }

  /** The next step of a recoverer: it reads the row once, checks processes against that snapshot, and
      clears with compare-and-swap. */
  ghost function RecoveryStep(w: World, id: nat): World
    requires id in w.recoveries
  {
    var r := w.recoveries[id];
    var lease, agent := r.seen.lease, r.seen.agent;
    match r.pc
    case Reading =>
      w.(recoveries := w.recoveries[id := r.(seen := w.row, pc := if r.kind == ClearStaleState then CheckingController else CheckingAgent)])
    case CheckingController =>
      if lease.pid.None? then RecoveryAt(w, id, CheckingAgent)
      else if lease.identity.None? then RecoveryAt(w, id, Failed)
      else if ControllerLive(w.sessions, lease.pid.value, lease.identity.value) then RecoveryAt(w, id, Failed)
      else RecoveryAt(w, id, CheckingAgent)
    case CheckingAgent =>
      if agent.pid.None? then RecoveryAt(w, id, if r.kind == ClearStaleState then ClearingLease else Succeeded)
      else if agent.identity.None? then RecoveryAt(w, id, Failed)
      else if AgentLive(w.agents, agent.pid.value, agent.identity.value) then RecoveryAt(w, id, Failed)
      else RecoveryAt(w, id, CheckingContainment)
    case CheckingContainment =>
      if agent.identity.None? || !ContainmentConfirmed(w.agents, agent.identity.value) then RecoveryAt(w, id, Failed)
      else if lease.token.None? then RecoveryAt(w, id, Failed)
      else RecoveryAt(w, id, ClearingAgent)
    case ClearingAgent =>
      if lease.token.None? || agent.pid.None? || agent.identity.None? then RecoveryAt(w, id, Failed)
      else
        (match ForgetStaleAgent(w.row, lease.token.value, agent.pid.value, agent.identity.value)
         case Ok(row) => RecoveryAt(w.(row := row), id, if r.kind == ClearStaleState then ClearingLease else Succeeded)
         case Err(_) => RecoveryAt(w, id, Failed))
    case ClearingLease =>
      if lease.token.Some? && lease.pid.Some? && lease.identity.Some? then
        (match DropStaleLease(w.row, lease.pid.value, lease.identity.value, lease.token.value)
         case Ok(row) => RecoveryAt(w.(row := row), id, Succeeded)
         case Err(_) => RecoveryAt(w, id, Failed))
      else if lease.token.Some? || lease.pid.Some? || lease.identity.Some? then RecoveryAt(w, id, Failed)
      else RecoveryAt(w, id, Succeeded)
    case Succeeded => w
    case Failed => w
  }

  /** One step of the world; a step that cannot be taken changes nothing. A process identity and a
      token are never used twice. */
  ghost function Do(w: World, step: Step): World {
    match step
    case SpawnController(token, pid, identity) =>
      if token in w.sessions || IdentityUsed(w.sessions, identity) then w
      else w.(sessions := w.sessions[token := Session(pid, identity, true, Starting)])
    case AgentExits(agent) =>
      if agent !in w.agents then w else w.(agents := w.agents[agent := w.agents[agent].(alive := false)])
    case AgentContained(agent) =>
      if agent !in w.agents || w.agents[agent].alive then w
      else w.(agents := w.agents[agent := w.agents[agent].(contained := true)])
    case Recoverer(id, kind) =>
      if id in w.recoveries then w else w.(recoveries := w.recoveries[id := Recovery(kind, FREE, Reading)])
    case Recover(id) => if id !in w.recoveries then w else RecoveryStep(w, id)
    case _ =>
      if step.token !in w.sessions || !w.sessions[step.token].alive then w else ControllerStep(w, step)
  }

  ghost function Run(schedule: seq<Step>): World {
    if schedule == [] then QUIET else Do(Run(schedule[..|schedule| - 1]), schedule[|schedule| - 1])
  }

  // ---------------------------------------------------------------------------------------------
  // The invariant

  predicate Working(pc: SessionPc) { !pc.Starting? && !pc.Over? }

  function LeaseOf(token: Text, s: Session): LeaseColumns {
    LeaseColumns(Some(s.pid), Some(s.identity), Some(token))
  }

  /** The lease columns are empty together, or name one controller, and a live controller that believes
      it holds the run does hold it. */
  ghost predicate LeasesHold(w: World) {
    && (w.row.lease == NO_LEASE
        || (w.row.lease.token.Some? && w.row.lease.token.value in w.sessions
            && w.row.lease == LeaseOf(w.row.lease.token.value, w.sessions[w.row.lease.token.value])))
    && (forall k :: k in w.sessions && w.sessions[k].alive && Working(w.sessions[k].pc) ==>
          w.row.lease == LeaseOf(k, w.sessions[k]))
  }

  ghost predicate UniqueIdentities(sessions: map<Text, Session>) {
    forall k, k' :: k in sessions && k' in sessions && sessions[k].identity == sessions[k'].identity ==> k == k'
  }

  /** The agent columns are empty together, or name one launched process; a process past its barrier
      stays registered until it is dead and contained. */
  ghost predicate AgentsHold(w: World) {
    && (w.row.agent == NO_AGENT
        || (w.row.agent.identity.Some? && w.row.agent.identity.value in w.agents
            && w.row.agent.pid == Some(w.agents[w.row.agent.identity.value].pid)))
    && (forall a :: a in w.agents ==> !(w.agents[a].alive && w.agents[a].contained))
    && (forall a :: a in w.agents && w.agents[a].started && !w.agents[a].contained ==> w.row.agent.identity == Some(a))
    && (forall k :: k in w.sessions && w.sessions[k].alive ==> LaunchHolds(w, w.sessions[k].pc))
  }

  /** An agent this controller registered is still registered unless it is contained. */
  ghost predicate LaunchHolds(w: World, pc: SessionPc) {
    match pc
    case Spawned(a) => a in w.agents
    case Registered(a) => a in w.agents && (!w.agents[a].contained ==> w.row.agent.identity == Some(a))
    case Watching(a) => a in w.agents && (!w.agents[a].contained ==> w.row.agent.identity == Some(a))
    case _ => true
  }

  /** What a recoverer has established about its snapshot still holds: dead processes stay dead. */
  ghost predicate RecoveryHolds(w: World, r: Recovery) {
    && (r.pc in {CheckingAgent, CheckingContainment, ClearingAgent, ClearingLease} && r.kind == ClearStaleState
        && r.seen.lease.pid.Some? && r.seen.lease.identity.Some? ==>
          !ControllerLive(w.sessions, r.seen.lease.pid.value, r.seen.lease.identity.value))
    && (r.pc != Reading && r.seen.lease.identity.Some? ==> IdentityUsed(w.sessions, r.seen.lease.identity.value))
    && (r.pc == CheckingController || r.pc == ClearingLease ==> r.kind == ClearStaleState)
    && (r.pc == ClearingAgent && r.seen.agent.identity.Some? ==> ContainmentConfirmed(w.agents, r.seen.agent.identity.value))
  }

  ghost predicate Inv(w: World) {
    && UniqueIdentities(w.sessions)
    && LeasesHold(w)
    && AgentsHold(w)
    && forall id :: id in w.recoveries ==> RecoveryHolds(w, w.recoveries[id])
  }

  /** A controller that died stays dead, and an acknowledged containment stays: what recoverers found
      survives every step. */
  ghost predicate FindingsStand(w: World, w': World) {
    && (forall k :: k in w.sessions ==> k in w'.sessions && SameIncarnation(w.sessions[k], w'.sessions[k]))
    && (forall k :: k in w'.sessions && k !in w.sessions ==> !IdentityUsed(w.sessions, w'.sessions[k].identity))
    && (forall a :: a in w.agents && w.agents[a].contained ==> a in w'.agents && w'.agents[a].contained)
  }

  predicate SameIncarnation(s: Session, s': Session) {
    s'.pid == s.pid && s'.identity == s.identity && (s'.alive ==> s.alive)
  }

  lemma RecoveryKeeps(w: World, w': World, r: Recovery)
    requires RecoveryHolds(w, r) && FindingsStand(w, w')
    ensures RecoveryHolds(w', r)
  {
    if r.pc != Reading && r.seen.lease.identity.Some? {
      var k :| k in w.sessions && w.sessions[k].identity == r.seen.lease.identity.value;
      assert w'.sessions[k].identity == r.seen.lease.identity.value;
    }
  }

  lemma SpawnKeepsUnique(sessions: map<Text, Session>, token: Text, s: Session)
    requires UniqueIdentities(sessions) && token !in sessions && !IdentityUsed(sessions, s.identity)
    ensures UniqueIdentities(sessions[token := s])
  {
    forall k | k in sessions ensures sessions[k].identity != s.identity {
    }
    hide IdentityUsed;
  }

  lemma UpdateKeepsUnique(sessions: map<Text, Session>, token: Text, s: Session)
    requires UniqueIdentities(sessions) && token in sessions && s.identity == sessions[token].identity
    ensures UniqueIdentities(sessions[token := s])
  {
  }

  ghost predicate ByController(step: Step) {
    || step.Acquire? || step.SpawnAgent? || step.Register? || step.StartAgent? || step.AgentEnded?
    || step.GiveUp? || step.Release? || step.Crash?
  }

  /** A controller's step replaces at most its own session, and keeps who it is. */
  lemma ControllerFrame(w: World, step: Step)
    requires ByController(step) && step.token in w.sessions && w.sessions[step.token].alive
    ensures var w', k := ControllerStep(w, step), step.token;
      && w'.recoveries == w.recoveries
      && k in w'.sessions && w'.sessions == w.sessions[k := w'.sessions[k]]
      && SameIncarnation(w.sessions[k], w'.sessions[k])
      && (forall a :: a in w.agents && w.agents[a].contained ==> a in w'.agents && w'.agents[a].contained)
  {
    hide AcquireLease, RegisterAgent, ForgetAgent, ReleaseLease;
    assert w.sessions == w.sessions[step.token := w.sessions[step.token]];
  }

  /** What a controller's step may do to the lease: take a free one, give its own back, or neither; and
      only one that holds it goes on working. */
  lemma ControllerLease(w: World, step: Step)
    requires ByController(step) && step.token in w.sessions && w.sessions[step.token].alive
    ensures var w', k := ControllerStep(w, step), step.token;
      && k in w'.sessions
      && (|| (w'.row.lease == w.row.lease && (Working(w'.sessions[k].pc) ==> Working(w.sessions[k].pc)))
          || (w.row.lease.token.None? && w'.row.lease == LeaseOf(k, w'.sessions[k]))
          || (w.row.lease.token == Some(k) && w.row.agent.pid.None? && w'.row == Custody(NO_LEASE, w.row.agent)
              && !Working(w'.sessions[k].pc)))
  {
  }

  lemma ControllerKeepsLeases(w: World, step: Step)
    requires LeasesHold(w) && UniqueIdentities(w.sessions) && ByController(step)
    requires step.token in w.sessions && w.sessions[step.token].alive
    ensures LeasesHold(ControllerStep(w, step)) && UniqueIdentities(ControllerStep(w, step).sessions)
    ensures FindingsStand(w, ControllerStep(w, step)) && ControllerStep(w, step).recoveries == w.recoveries
  {
    hide UniqueIdentities, IdentityUsed, ControllerStep;
    ControllerFrame(w, step);
    ControllerLease(w, step);
    var w' := ControllerStep(w, step);
    UpdateKeepsUnique(w.sessions, step.token, w'.sessions[step.token]);
  }

  /** What it may do to the registration: under its own lease anything, otherwise at most clear it. */
  lemma ControllerAgent(w: World, step: Step)
    requires ByController(step) && step.token in w.sessions && w.sessions[step.token].alive
    ensures var w' := ControllerStep(w, step);
      || w'.row.agent == w.row.agent
      || w'.row.agent == NO_AGENT
      || (w.row.lease.token == Some(step.token) && w'.row.lease == w.row.lease)
  {
  }

  lemma LaunchKeepsAgents(w: World, step: Step)
    requires LeasesHold(w) && AgentsHold(w) && (step.SpawnAgent? || step.Register? || step.StartAgent?)
    requires step.token in w.sessions && w.sessions[step.token].alive
    ensures AgentsHold(ControllerStep(w, step))
  {
    hide ForgetAgent, AcquireLease, ReleaseLease;
  }

  lemma EndKeepsAgents(w: World, step: Step)
    requires LeasesHold(w) && AgentsHold(w) && step.AgentEnded?
    requires step.token in w.sessions && w.sessions[step.token].alive
    ensures AgentsHold(ControllerStep(w, step))
  {
    hide AcquireLease, ReleaseLease, RegisterAgent;
  }

  lemma LeaseStepKeepsAgents(w: World, step: Step)
    requires AgentsHold(w) && (step.Acquire? || step.GiveUp? || step.Release? || step.Crash?)
    requires step.token in w.sessions && w.sessions[step.token].alive
    ensures AgentsHold(ControllerStep(w, step))
  {
    hide ForgetAgent, RegisterAgent;
  }

  lemma ControllerKeepsAgents(w: World, step: Step)
    requires LeasesHold(w) && AgentsHold(w) && ByController(step)
    requires step.token in w.sessions && w.sessions[step.token].alive
    ensures AgentsHold(ControllerStep(w, step))
  {
    hide LeasesHold, AgentsHold, ControllerStep;
    if step.AgentEnded? {
      EndKeepsAgents(w, step);
    } else if step.SpawnAgent? || step.Register? || step.StartAgent? {
      LaunchKeepsAgents(w, step);
    } else {
      LeaseStepKeepsAgents(w, step);
    }
  }

  /** What a recoverer's step may do to the row: clear the agent it saw contained, under the token it saw,
      or clear the lease it saw. */
  ghost predicate RecoveryEffect(w: World, w': World, r: Recovery) {
    && w'.sessions == w.sessions && w'.agents == w.agents
    && (|| w'.row == w.row
        || (w'.row == w.row.(agent := NO_AGENT) && r.pc == ClearingAgent && w.row.lease.token.Some?
            && w.row.agent.identity.Some? && w.row.agent.identity == r.seen.agent.identity)
        || (w'.row == w.row.(lease := NO_LEASE) && r.pc == ClearingLease && w.row.lease == r.seen.lease
            && w.row.lease.pid.Some? && w.row.lease.identity.Some?))
  }

  lemma RecoveryHasEffect(w: World, id: nat)
    requires id in w.recoveries
    ensures RecoveryEffect(w, RecoveryStep(w, id), w.recoveries[id])
  {
    hide ControllerLive, ContainmentConfirmed, AgentLive;
  }

  /** Only a recoverer that saw the lease's controller dead can drop the lease, so no live controller
      loses it; only one that saw the agent contained can clear it. */
  lemma RecoveryKeepsRow(w: World, id: nat)
    requires LeasesHold(w) && AgentsHold(w) && id in w.recoveries && RecoveryHolds(w, w.recoveries[id])
    ensures LeasesHold(RecoveryStep(w, id)) && AgentsHold(RecoveryStep(w, id))
  {
    hide IdentityUsed, RecoveryStep;
    RecoveryHasEffect(w, id);
  }

  lemma LeaseholderIsKnown(w: World)
    requires LeasesHold(w) && w.row.lease.identity.Some?
    ensures IdentityUsed(w.sessions, w.row.lease.identity.value)
  {
    assert w.sessions[w.row.lease.token.value].identity == w.row.lease.identity.value;
  }

  /** A recoverer's step writes its own entry only. */
  lemma RecoveryFrame(w: World, id: nat)
    requires id in w.recoveries
    ensures var w' := RecoveryStep(w, id);
      && id in w'.recoveries && w'.recoveries == w.recoveries[id := w'.recoveries[id]]
      && w'.recoveries[id].kind == w.recoveries[id].kind
      && (w.recoveries[id].pc != Reading ==> w'.recoveries[id].seen == w.recoveries[id].seen && w'.recoveries[id].pc != Reading)
      && (w.recoveries[id].pc == Reading ==>
            w'.row == w.row && w'.recoveries[id].seen == w.row && w'.recoveries[id].pc in {CheckingController, CheckingAgent})
  {
    hide ControllerLive, ContainmentConfirmed, AgentLive, ForgetStaleAgent, DropStaleLease;
    assert w.recoveries == w.recoveries[id := w.recoveries[id]];
  }

  lemma RecoveryKeepsOwnFindings(w: World, id: nat)
    requires LeasesHold(w) && id in w.recoveries && RecoveryHolds(w, w.recoveries[id])
    ensures var w' := RecoveryStep(w, id);
      && id in w'.recoveries && w'.recoveries == w.recoveries[id := w'.recoveries[id]]
      && w'.sessions == w.sessions && w'.agents == w.agents
      && RecoveryHolds(w', w'.recoveries[id])
  {
    RecoveryFrame(w, id);
    RecoveryHasEffect(w, id);
    if w.recoveries[id].pc == Reading {
      if w.row.lease.identity.Some? {
        LeaseholderIsKnown(w);
      }
      hide RecoveryStep, LeasesHold, IdentityUsed;
      ReadingKind(w, id);
    } else {
      OwnFindings(w, id);
      hide RecoveryStep, LeasesHold, IdentityUsed, ControllerLive, ContainmentConfirmed;
    }
  }

  lemma ReadingKind(w: World, id: nat)
    requires id in w.recoveries && w.recoveries[id].pc == Reading
    ensures var r := RecoveryStep(w, id).recoveries; id in r && (r[id].pc == CheckingController <==> w.recoveries[id].kind == ClearStaleState)
    ensures RecoveryStep(w, id).recoveries[id].kind == ClearStaleState ==> RecoveryStep(w, id).recoveries[id].pc == CheckingController
  {
  }

  /** The findings with which a recoverer goes on. */
  lemma OwnFindings(w: World, id: nat)
    requires id in w.recoveries && w.recoveries[id].pc != Reading && RecoveryHolds(w, w.recoveries[id])
    ensures id in RecoveryStep(w, id).recoveries && RecoveryHolds(w, RecoveryStep(w, id).recoveries[id])
  {
    hide IdentityUsed, ControllerLive, AgentLive, ForgetStaleAgent, DropStaleLease;
  }

  lemma SpawnKeeps(w: World, step: Step)
    requires LeasesHold(w) && AgentsHold(w) && UniqueIdentities(w.sessions) && step.SpawnController?
    ensures LeasesHold(Do(w, step)) && AgentsHold(Do(w, step)) && UniqueIdentities(Do(w, step).sessions)
    ensures FindingsStand(w, Do(w, step)) && Do(w, step).recoveries == w.recoveries
  {
    if step.token !in w.sessions && !IdentityUsed(w.sessions, step.identity) {
      SpawnKeepsUnique(w.sessions, step.token, Session(step.pid, step.identity, true, Starting));
    }
    hide UniqueIdentities, IdentityUsed;
  }

  lemma AgentsEnd(w: World, step: Step)
    requires AgentsHold(w) && (step.AgentExits? || step.AgentContained?)
    ensures var w' := Do(w, step);
      && AgentsHold(w') && w'.row == w.row && w'.sessions == w.sessions && w'.recoveries == w.recoveries
      && forall a :: a in w.agents && w.agents[a].contained ==> a in w'.agents && w'.agents[a].contained
  {
  }

  lemma EnvironmentKeeps(w: World, step: Step)
    requires LeasesHold(w) && AgentsHold(w) && UniqueIdentities(w.sessions)
    requires step.SpawnController? || step.AgentExits? || step.AgentContained?
    ensures LeasesHold(Do(w, step)) && AgentsHold(Do(w, step)) && UniqueIdentities(Do(w, step).sessions)
    ensures FindingsStand(w, Do(w, step)) && Do(w, step).recoveries == w.recoveries
  {
    hide Do, AgentsHold, UniqueIdentities, IdentityUsed;
    if step.SpawnController? {
      SpawnKeeps(w, step);
    } else {
      AgentsEnd(w, step);
    }
  }

  lemma InvUnfolds(w: World)
    requires Inv(w)
    ensures UniqueIdentities(w.sessions) && LeasesHold(w) && AgentsHold(w)
    ensures forall id :: id in w.recoveries ==> RecoveryHolds(w, w.recoveries[id])
  {
  }

  /** Every step keeps the invariant. */
  lemma StepKeepsInv(w: World, step: Step)
    requires Inv(w)
    ensures Inv(Do(w, step))
  {
    InvUnfolds(w);
    var w' := Do(w, step);
    hide UniqueIdentities, LeasesHold, AgentsHold, RecoveryHolds, FindingsStand, IdentityUsed, ControllerStep, RecoveryStep;
    if step.Recover? {
      if step.id in w.recoveries {
        RecoveryKeepsRow(w, step.id);
        RecoveryKeepsOwnFindings(w, step.id);
        forall id | id in w'.recoveries ensures RecoveryHolds(w', w'.recoveries[id]) {
          if id != step.id {
            NothingFound(w, w');
            RecoveryKeeps(w, w', w.recoveries[id]);
          }
        }
      }
    } else if step.Recoverer? {
      NewRecoverer(w, step);
    } else {
      if step.SpawnController? || step.AgentExits? || step.AgentContained? {
        EnvironmentKeeps(w, step);
      } else if step.token in w.sessions && w.sessions[step.token].alive {
        ControllerKeepsLeases(w, step);
        ControllerKeepsAgents(w, step);
      } else {
        NothingFound(w, w');
      }
      forall id | id in w'.recoveries ensures RecoveryHolds(w', w'.recoveries[id]) {
        RecoveryKeeps(w, w', w.recoveries[id]);
      }
    }
  }

  lemma NothingFound(w: World, w': World)
    requires w'.sessions == w.sessions && w'.agents == w.agents
    ensures FindingsStand(w, w')
  {
  }

  lemma NewRecoverer(w: World, step: Step)
    requires Inv(w) && step.Recoverer?
    ensures Inv(Do(w, step))
  {
    InvUnfolds(w);
    var w' := Do(w, step);
    if step.id !in w.recoveries {
      forall id | id in w'.recoveries ensures RecoveryHolds(w', w'.recoveries[id]) {
        if id != step.id {
          NothingFound(w, w');
          RecoveryKeeps(w, w', w.recoveries[id]);
        }
      }
      hide UniqueIdentities, RecoveryHolds;
    }
  }

  lemma {:induction false} EveryRunHolds(schedule: seq<Step>)
    ensures Inv(Run(schedule))
  {
    if schedule != [] {
      EveryRunHolds(schedule[..|schedule| - 1]);
      StepKeepsInv(Run(schedule[..|schedule| - 1]), schedule[|schedule| - 1]);
    }
  }

  // ---------------------------------------------------------------------------------------------
  // What that gives

  /** At most one live controller works on a run, and it is the one the lease names. */
  lemma OneLiveController(schedule: seq<Step>, k: Text, k': Text)
    requires var w := Run(schedule);
      && k in w.sessions && w.sessions[k].alive && Working(w.sessions[k].pc)
      && k' in w.sessions && w.sessions[k'].alive && Working(w.sessions[k'].pc)
    ensures k == k'
    ensures Run(schedule).row.lease == LeaseOf(k, Run(schedule).sessions[k])
  {
    EveryRunHolds(schedule);
  }

  /** At most one agent is past its barrier without proven containment, whatever crashed and whoever
      recovered: it is the registered one. */
  lemma OneUncontainedAgent(schedule: seq<Step>, a: Text, a': Text)
    requires var w := Run(schedule);
      && a in w.agents && w.agents[a].started && !w.agents[a].contained
      && a' in w.agents && w.agents[a'].started && !w.agents[a'].contained
    ensures a == a' && Run(schedule).row.agent.identity == Some(a)
  {
    EveryRunHolds(schedule);
  }

  /** The lease columns change only by a controller taking a free lease, by its holder giving it back
      with no agent registered, or by a recoverer whose snapshot is the lease of a dead controller. A
      recoverer with any other snapshot changes nothing. */
  lemma LeaseChangesHands(schedule: seq<Step>, step: Step)
    requires var w := Run(schedule); Do(w, step).row.lease != w.row.lease
    ensures var w := Run(schedule); var w' := Do(w, step);
      || (step.Acquire? && w.row.lease == NO_LEASE && w'.row.lease.token == Some(step.token))
      || (step.Release? && w.row.lease.token == Some(step.token) && w.row.agent == NO_AGENT && w'.row.lease == NO_LEASE)
      || (step.Recover? && step.id in w.recoveries && w.recoveries[step.id].seen.lease == w.row.lease
          && w.row.lease.pid.Some? && w.row.lease.identity.Some?
          && !ControllerLive(w.sessions, w.row.lease.pid.value, w.row.lease.identity.value) && w'.row.lease == NO_LEASE)
  {
    EveryRunHolds(schedule);
    var w := Run(schedule);
    hide Run;
    InvUnfolds(w);
    hide UniqueIdentities, IdentityUsed, AgentsHold;
    if step.Recover? && step.id in w.recoveries {
      assert RecoveryHolds(w, w.recoveries[step.id]);
    }
  }

  /** A registration is cleared only once its agent is dead and contained. */
  lemma RegistrationEndsContained(schedule: seq<Step>, step: Step)
    requires var w := Run(schedule); w.row.agent != NO_AGENT && Do(w, step).row.agent != w.row.agent
    ensures var w := Run(schedule);
      && Do(w, step).row.agent == NO_AGENT
      && w.row.agent.identity.Some? && ContainmentConfirmed(w.agents, w.row.agent.identity.value)
      && !w.agents[w.row.agent.identity.value].alive
  {
    EveryRunHolds(schedule);
    var w := Run(schedule);
    hide Run;
    InvUnfolds(w);
    hide UniqueIdentities, IdentityUsed, LeasesHold;
    if step.Recover? && step.id in w.recoveries {
      assert RecoveryHolds(w, w.recoveries[step.id]);
    }
  }

  /** A registered agent implies a held lease. */
  predicate AgentUnderLease(w: World) { w.row.agent.pid.Some? ==> w.row.lease.token.Some? }

  /** The one step that breaks it: `clear_stale_process_lease` of a recoverer whose snapshot still is the
      lease and shows no agent, when an agent has been registered since. */
  predicate ClearsUnderAgent(w: World, step: Step) {
    && step.Recover? && step.id in w.recoveries && w.recoveries[step.id].pc == ClearingLease
    && w.recoveries[step.id].seen.lease == w.row.lease && w.row.lease.token.Some?
    && w.recoveries[step.id].seen.agent == NO_AGENT && w.row.agent.pid.Some?
  }

  /** Under the lease of a dead controller nothing is registered any more. */
  lemma DeadLeaseFreezes(w: World, step: Step)
    requires Inv(w)
    requires var w' := Do(w, step);
      var token := w'.row.lease.token; token.Some? && token.value in w'.sessions && !w'.sessions[token.value].alive
    ensures var w' := Do(w, step); w'.row.lease == w.row.lease && (w'.row.agent == w.row.agent || w'.row.agent == NO_AGENT)
  {
    if ByController(step) && step.token in w.sessions && w.sessions[step.token].alive {
      if step.Crash? {
        assert Do(w, step).row == w.row;
      } else {
        ControllerFrame(w, step);
        ControllerLease(w, step);
        ControllerAgent(w, step);
        OthersKeepAlive(w, step);
      }
    } else if step.Recover? && step.id in w.recoveries {
      RecoveryHasEffect(w, step.id);
    }
    hide Inv, ControllerStep, RecoveryStep, IdentityUsed;
  }

  lemma OthersKeepAlive(w: World, step: Step)
    requires ByController(step) && !step.Crash? && step.token in w.sessions && w.sessions[step.token].alive
    ensures var w' := ControllerStep(w, step); step.token in w'.sessions && w'.sessions[step.token].alive
  {
  }

  lemma SnapshotLeaseIsDead(w: World, r: Recovery)
    requires Inv(w) && RecoveryHolds(w, r) && r.pc == ClearingLease && r.seen.lease == w.row.lease && w.row.lease.token.Some?
    ensures w.row.lease.token.value in w.sessions && !w.sessions[w.row.lease.token.value].alive
  {
  }

  /** A snapshot's agent columns are empty or name an agent completely. */
  predicate SnapshotHolds(r: Recovery) { r.seen.agent.pid.Some? || r.seen.agent == NO_AGENT }

  /** A recoverer about to clear the lease that its snapshot still shows, with an agent in that snapshot,
      has cleared that agent, and none came after it. */
  predicate ClearedFirst(row: Custody, r: Recovery) {
    var clearing := r.pc == ClearingLease && r.seen.agent.pid.Some? && r.seen.lease == row.lease && row.lease.token.Some?;
    clearing ==> row.agent == NO_AGENT
  }

  ghost predicate SnapshotsHold(w: World) {
    forall id :: id in w.recoveries ==> SnapshotHolds(w.recoveries[id]) && ClearedFirst(w.row, w.recoveries[id])
  }

  lemma ReadKeepsSnapshot(w: World)
    requires AgentsHold(w)
    ensures w.row.agent.pid.Some? || w.row.agent == NO_AGENT
  {
  }

  /** A recoverer that saw an agent comes to clear the lease by clearing that agent. */
  lemma ClearingFollowsClearing(w: World, id: nat)
    requires id in w.recoveries && w.recoveries[id].pc != Reading
    ensures var r, w' := w.recoveries[id], RecoveryStep(w, id);
      && id in w'.recoveries
      && (w'.recoveries[id].pc == ClearingLease && r.seen.agent.pid.Some? ==> w'.row.agent == NO_AGENT)
      && (r.pc == ClearingLease ==> w'.recoveries[id].pc != ClearingLease)
  {
    hide ControllerLive, ContainmentConfirmed, AgentLive, DropStaleLease;
  }

  lemma RecoveryStepFrame(w: World, id: nat)
    requires id in w.recoveries && AgentsHold(w)
    ensures var w' := RecoveryStep(w, id);
      && id in w'.recoveries && w'.recoveries == w.recoveries[id := w'.recoveries[id]]
      && (SnapshotHolds(w.recoveries[id]) ==> SnapshotHolds(w'.recoveries[id]))
      && (w'.recoveries[id].pc == ClearingLease && w'.recoveries[id].seen.agent.pid.Some? && w.recoveries[id].pc != ClearingLease
          ==> w'.row.agent == NO_AGENT)
      && (w.recoveries[id].pc == ClearingLease ==> w'.recoveries[id].pc != ClearingLease)
  {
    RecoveryFrame(w, id);
    ReadKeepsSnapshot(w);
    if w.recoveries[id].pc != Reading {
      ClearingFollowsClearing(w, id);
    }
    hide RecoveryStep, AgentsHold;
  }

  lemma OthersKeepRecoveries(w: World, step: Step)
    requires !step.Recover?
    ensures var w' := Do(w, step);
      forall id :: id in w'.recoveries ==>
        (id in w.recoveries && w'.recoveries[id] == w.recoveries[id]) || w'.recoveries[id] == Recovery(w'.recoveries[id].kind, FREE, Reading)
  {
  }

  lemma StepKeepsSnapshots(w: World, step: Step)
    requires Inv(w) && SnapshotsHold(w)
    ensures SnapshotsHold(Do(w, step))
  {
    var w' := Do(w, step);
    StepKeepsInv(w, step);
    InvUnfolds(w');
    InvUnfolds(w);
    if step.Recover? {
      if step.id in w.recoveries {
        RecoveryStepFrame(w, step.id);
      }
    } else {
      OthersKeepRecoveries(w, step);
    }
    hide Do, Inv, LeasesHold, AgentsHold, UniqueIdentities;
    forall id | id in w'.recoveries
      ensures SnapshotHolds(w'.recoveries[id]) && ClearedFirst(w'.row, w'.recoveries[id])
    {
      var r := w'.recoveries[id];
      if r.pc == ClearingLease && r.seen.agent.pid.Some? && r.seen.lease == w'.row.lease && w'.row.lease.token.Some? {
        SnapshotLeaseIsDead(w', r);
        DeadLeaseFreezes(w, step);
      }
    }
  }

  lemma {:induction false} EveryRunKeepsSnapshots(schedule: seq<Step>)
    ensures SnapshotsHold(Run(schedule))
  {
    if schedule != [] {
      var front := schedule[..|schedule| - 1];
      EveryRunHolds(front);
      EveryRunKeepsSnapshots(front);
      StepKeepsSnapshots(Run(front), schedule[|schedule| - 1]);
    }
  }

  /** From any reachable state in which it holds, a step keeps it if and only if it is not that one. */
  lemma KeptUnlessClearedUnderAgent(schedule: seq<Step>, step: Step)
    requires AgentUnderLease(Run(schedule))
    ensures AgentUnderLease(Do(Run(schedule), step)) <==> !ClearsUnderAgent(Run(schedule), step)
  {
    EveryRunHolds(schedule);
    EveryRunKeepsSnapshots(schedule);
    var w := Run(schedule);
    hide Run;
    InvUnfolds(w);
    if step.Recover? {
      if step.id in w.recoveries {
        RecoveryHasEffect(w, step.id);
        if w.recoveries[step.id].pc == ClearingLease && w.row.lease.token.Some? {
          ClearsOrNot(w, step.id);
        }
        assert SnapshotHolds(w.recoveries[step.id]) && ClearedFirst(w.row, w.recoveries[step.id]);
      }
    } else if ByController(step) && step.token in w.sessions && w.sessions[step.token].alive {
      ControllerFrame(w, step);
      ControllerLease(w, step);
      ControllerAgent(w, step);
    }
    hide Inv, SnapshotsHold, UniqueIdentities, IdentityUsed, RecoveryHolds, ControllerLive, ControllerStep, RecoveryStep, AgentsHold;
  }

  /** The lease is cleared exactly when the snapshot still is the lease. */
  lemma ClearsOrNot(w: World, id: nat)
    requires LeasesHold(w) && id in w.recoveries && w.recoveries[id].pc == ClearingLease && w.row.lease.token.Some?
    ensures RecoveryStep(w, id).row == if w.recoveries[id].seen.lease == w.row.lease then w.row.(lease := NO_LEASE) else w.row
  {
  }

  lemma DeadStaysDead(w: World, step: Step, k: Text)
    requires k in w.sessions && !w.sessions[k].alive
    ensures k in Do(w, step).sessions && !Do(w, step).sessions[k].alive
  {
    hide IdentityUsed, ControllerLive;
  }

  lemma SnapshotStays(w: World, step: Step, id: nat)
    requires id in w.recoveries && w.recoveries[id].pc != Reading
    ensures var w' := Do(w, step);
      id in w'.recoveries && w'.recoveries[id].seen == w.recoveries[id].seen && w'.recoveries[id].pc != Reading
  {
    if ByController(step) && step.token in w.sessions && w.sessions[step.token].alive {
      ControllerFrame(w, step);
    }
    hide IdentityUsed, ControllerLive, ControllerStep, AgentLive, ContainmentConfirmed, ForgetStaleAgent, DropStaleLease;
  }

  lemma ReadingTakesSnapshot(w: World, id: nat)
    requires id in w.recoveries && w.recoveries[id].pc == Reading
    ensures var w' := Do(w, Recover(id));
      && id in w'.recoveries && w'.recoveries[id].seen == w.row && w'.recoveries[id].pc != Reading
      && w'.row == w.row && w'.sessions == w.sessions
  {
  }

  lemma {:induction false} DeadSnapshot(before: seq<Step>, after: seq<Step>, id: nat)
    requires var w := Run(before);
      && id in w.recoveries && w.recoveries[id].pc == Reading && w.row.lease.token.Some?
      && w.row.lease.token.value in w.sessions && !w.sessions[w.row.lease.token.value].alive
    ensures var w0, w := Run(before), Run(before + [Recover(id)] + after);
      && id in w.recoveries && w.recoveries[id].seen == w0.row && w.recoveries[id].pc != Reading
      && w0.row.lease.token.value in w.sessions && !w.sessions[w0.row.lease.token.value].alive
      && (w.row.lease == w0.row.lease ==> w.row.agent in {w0.row.agent, NO_AGENT})
    decreases |after|
  {
    var w0, whole := Run(before), before + [Recover(id)] + after;
    hide Do;
    if after == [] {
      assert whole[..|whole| - 1] == before;
      ReadingTakesSnapshot(w0, id);
    } else {
      var front, step := after[..|after| - 1], after[|after| - 1];
      assert whole[..|whole| - 1] == before + [Recover(id)] + front;
      DeadSnapshot(before, front, id);
      var w := Run(before + [Recover(id)] + front);
      EveryRunHolds(before + [Recover(id)] + front);
      assert Run(whole) == Do(w, step);
      hide Run, Inv;
      SnapshotStays(w, step, id);
      DeadStaysDead(w, step, w0.row.lease.token.value);
      if Do(w, step).row.lease == w0.row.lease {
        DeadLeaseFreezes(w, step);
      }
    }
  }

  /** So it takes a snapshot of a living controller: a recoverer that read the row after the controller
      had died never clears the lease under an agent, whatever happens between. */
  lemma DeadControllersSnapshotIsSafe(before: seq<Step>, after: seq<Step>, id: nat)
    requires var w := Run(before);
      && id in w.recoveries && w.recoveries[id].pc == Reading
      && (w.row.lease.token.Some? && w.row.lease.token.value in w.sessions ==> !w.sessions[w.row.lease.token.value].alive)
    ensures !ClearsUnderAgent(Run(before + [Recover(id)] + after), Recover(id))
  {
    EveryRunHolds(before);
    InvUnfolds(Run(before));
    if Run(before).row.lease.token.Some? {
      DeadSnapshot(before, after, id);
    } else {
      FreeSnapshot(before, after, id);
    }
    hide Run, Inv;
  }

  /** A snapshot of a free run has no lease to clear. */
  lemma {:induction false} FreeSnapshot(before: seq<Step>, after: seq<Step>, id: nat)
    requires var w := Run(before); id in w.recoveries && w.recoveries[id].pc == Reading && w.row.lease.token.None?
    ensures var w := Run(before + [Recover(id)] + after);
      id in w.recoveries && w.recoveries[id].pc != Reading && w.recoveries[id].seen.lease.token.None?
    decreases |after|
  {
    var whole := before + [Recover(id)] + after;
    hide Do;
    if after == [] {
      assert whole[..|whole| - 1] == before;
      ReadingTakesSnapshot(Run(before), id);
    } else {
      var front := after[..|after| - 1];
      assert whole[..|whole| - 1] == before + [Recover(id)] + front;
      FreeSnapshot(before, front, id);
      SnapshotStays(Run(before + [Recover(id)] + front), after[|after| - 1], id);
    }
  }

  ghost predicate NeverClearsUnderAgent(schedule: seq<Step>) {
    forall i :: 0 <= i < |schedule| ==> !ClearsUnderAgent(Run(schedule[..i]), schedule[i])
  }

  /** So over every schedule in which no stale lease is cleared while an agent is registered, a
      registered agent implies a held lease. */
  lemma {:induction false} GuardedRunsKeepAgentUnderLease(schedule: seq<Step>)
    requires NeverClearsUnderAgent(schedule)
    ensures AgentUnderLease(Run(schedule))
  {
    if schedule != [] {
      var front := schedule[..|schedule| - 1];
      forall i | 0 <= i < |front| ensures !ClearsUnderAgent(Run(front[..i]), front[i]) {
        assert front[..i] == schedule[..i];
      }
      GuardedRunsKeepAgentUnderLease(front);
      KeptUnlessClearedUnderAgent(front, schedule[|schedule| - 1]);
    }
  }

  /** The schedule that breaks it: the recoverer reads the row before the agent is registered, and the
      controller dies before the recoverer looks at it. */
  function StaleRecovery(token: Text, identity: Text, agent: Text, path: Text, nonce: Text): seq<Step> {
    [SpawnController(token, 1, identity), Acquire(token), Recoverer(0, ClearStaleState), Recover(0),
     SpawnAgent(token, agent, 2), Register(token, path, nonce), StartAgent(token), Crash(token),
     Recover(0), Recover(0), Recover(0)]
  }

  lemma Unroll(schedule: seq<Step>, n: nat)
    requires n < |schedule|
    ensures Run(schedule[..n + 1]) == Do(Run(schedule[..n]), schedule[n])
  {
    assert schedule[..n + 1][..n] == schedule[..n];
  }

  /** The controller holds the lease, and a recoverer has read the row. */
  function SnapshotTaken(token: Text, identity: Text): World {
    var lease := LeaseColumns(Some(1), Some(identity), Some(token));
    World(Custody(lease, NO_AGENT), map[token := Session(1, identity, true, Holding)], map[],
          map[0 := Recovery(ClearStaleState, Custody(lease, NO_AGENT), CheckingController)])
  }

  /** Then the agent was registered and started, and the controller died. */
  function ControllerDied(token: Text, identity: Text, agent: Text, path: Text, nonce: Text): World {
    var w := SnapshotTaken(token, identity);
    w.(row := w.row.(agent := AgentColumns(Some(2), Some(agent), Some(path), Some(nonce))),
       sessions := map[token := Session(1, identity, false, Watching(agent))],
       agents := map[agent := AgentProc(2, true, true, false)])
  }

  lemma ReachSnapshot(token: Text, identity: Text)
    ensures Do(Do(Do(Do(QUIET, SpawnController(token, 1, identity)), Acquire(token)), Recoverer(0, ClearStaleState)), Recover(0))
            == SnapshotTaken(token, identity)
  {
    var held := Do(Do(QUIET, SpawnController(token, 1, identity)), Acquire(token));
    assert held == SnapshotTaken(token, identity).(recoveries := map[]);
  }

  lemma ReachCrash(token: Text, identity: Text, agent: Text, path: Text, nonce: Text)
    ensures Do(Do(Do(Do(SnapshotTaken(token, identity), SpawnAgent(token, agent, 2)), Register(token, path, nonce)), StartAgent(token)), Crash(token))
            == ControllerDied(token, identity, agent, path, nonce)
  {
    var w := Do(Do(SnapshotTaken(token, identity), SpawnAgent(token, agent, 2)), Register(token, path, nonce));
    assert w == ControllerDied(token, identity, agent, path, nonce).(
        sessions := map[token := Session(1, identity, true, Registered(agent))],
        agents := map[agent := AgentProc(2, false, true, false)]);
  }

  lemma ReachClearing(w: World)
    requires 0 in w.recoveries && w.recoveries[0].kind == ClearStaleState && w.recoveries[0].pc == CheckingController
    requires w.recoveries[0].seen.agent == NO_AGENT && w.recoveries[0].seen.lease == w.row.lease
    requires w.row.lease.pid.Some? && w.row.lease.identity.Some? && w.row.lease.token.Some?
    requires !ControllerLive(w.sessions, w.row.lease.pid.value, w.row.lease.identity.value)
    ensures var w' := Do(Do(Do(w, Recover(0)), Recover(0)), Recover(0));
      w'.row == Custody(NO_LEASE, w.row.agent) && w'.agents == w.agents
  {
  }

  /** The row then names a live, started agent and no lease. */
  lemma RegisteredAgentCanLoseItsLease(token: Text, identity: Text, agent: Text, path: Text, nonce: Text)
    ensures var w := Run(StaleRecovery(token, identity, agent, path, nonce));
      && w.row.lease == NO_LEASE && w.row.agent.identity == Some(agent)
      && agent in w.agents && w.agents[agent].alive && w.agents[agent].started
      && !AgentUnderLease(w)
  {
    hide Do;
    var s := StaleRecovery(token, identity, agent, path, nonce);
    Unroll(s, 0); Unroll(s, 1); Unroll(s, 2); Unroll(s, 3); Unroll(s, 4); Unroll(s, 5);
    Unroll(s, 6); Unroll(s, 7); Unroll(s, 8); Unroll(s, 9); Unroll(s, 10);
    assert s[..0] == [] && s[..11] == s;
    ReachSnapshot(token, identity);
    ReachCrash(token, identity, agent, path, nonce);
    ReachClearing(ControllerDied(token, identity, agent, path, nonce));
  }

  ghost function RunFrom(w: World, schedule: seq<Step>): World {
    if schedule == [] then w else Do(RunFrom(w, schedule[..|schedule| - 1]), schedule[|schedule| - 1])
  }

  /** Recoverers, and processes that end by themselves; no controller steps. */
  predicate NoController(step: Step) { step.Recoverer? || step.Recover? || step.AgentExits? || step.AgentContained? }

  /** Where a recovery stands that started from this row. */
  predicate Blocked(row: Custody, r: Recovery) {
    r.pc == Reading || (r.seen == row && r.pc in {CheckingController, CheckingAgent, CheckingContainment, Failed})
  }

  lemma OrphanRecovery(w: World, id: nat)
    requires w.row.lease == NO_LEASE && w.row.agent.pid.Some? && id in w.recoveries
    ensures var w' := RecoveryStep(w, id);
      && w'.row == w.row && id in w'.recoveries && w'.recoveries == w.recoveries[id := w'.recoveries[id]]
      && (Blocked(w.row, w.recoveries[id]) ==> Blocked(w.row, w'.recoveries[id]))
  {
    hide ControllerLive, ContainmentConfirmed, AgentLive;
    assert w.recoveries == w.recoveries[id := w.recoveries[id]];
  }

  lemma OrphanStep(w: World, step: Step, known: map<nat, Recovery>)
    requires w.row.lease == NO_LEASE && w.row.agent.pid.Some? && NoController(step)
    requires forall id :: id in w.recoveries && id !in known ==> Blocked(w.row, w.recoveries[id])
    ensures var w' := Do(w, step);
      w'.row == w.row && forall id :: id in w'.recoveries && id !in known ==> Blocked(w.row, w'.recoveries[id])
  {
    hide RecoveryStep, ControllerLive;
    if step.Recover? && step.id in w.recoveries {
      OrphanRecovery(w, step.id);
    }
  }

  /** From a registration without a lease, over every schedule of recoverers, however they interleave:
      the row stays as it is, and no recovery that starts there ever succeeds. Clearing the registration
      needs the token of a lease. */
  lemma {:induction false} OrphanedRegistrationBlocksRecovery(w: World, schedule: seq<Step>)
    requires w.row.lease == NO_LEASE && w.row.agent.pid.Some?
    requires forall i :: 0 <= i < |schedule| ==> NoController(schedule[i])
    ensures var w' := RunFrom(w, schedule);
      && w'.row == w.row
      && forall id :: id in w'.recoveries && id !in w.recoveries ==>
        Blocked(w.row, w'.recoveries[id]) && w'.recoveries[id].pc != Succeeded
  {
    if schedule != [] {
      var front := schedule[..|schedule| - 1];
      OrphanedRegistrationBlocksRecovery(w, front);
      OrphanStep(RunFrom(w, front), schedule[|schedule| - 1], w.recoveries);
    }
  }
}
