/** Whole calls of the order service, from any reachable world: what `place_order`, `recover` and
    `deliver` do, answer by answer, when no other call steps in between. */
module OrderCalls {
  import opened Common
  import opened OrderModels
  import opened OrderMemory
  import opened OrderTables
  import opened OrderPlanning
  import opened OrderService
  import opened OrderSafety
  import opened OrderGuarantees
  import opened OrderOutcomes

  lemma ReachableSteps(rules: TextRules, w: World, step: Step)
    requires Reachable(rules, w)
    ensures Reachable(rules, Do(rules, w, step))
  {
    var start, schedule :| Fresh(start) && w == Run(rules, start, schedule);
    assert (schedule + [step])[..|schedule|] == schedule;
    hide Do;
    assert Run(rules, start, schedule + [step]) == Do(rules, w, step);
  }

  /** No other order differs. */
  ghost predicate SameOthers(rules: TextRules, w: World, w': World, id: Id) {
    forall other :: other != id ==> Lookup(rules, w'.store, other) == Lookup(rules, w.store, other)
  }

  /** A call that stops, at whatever point, loses only its place: what it stored stays, and nobody else
      notices. */
  lemma StoppedCallIsForgotten(rules: TextRules, w: World, t: nat)
    requires t in w.threads
    ensures var w' := Do(rules, w, StopThread(t));
      && w'.store == w.store && w'.trace == w.trace
      && w'.threads == w.threads[t := Thread(w.threads[t].call, Done(None))]
  {
  }

  // ---------------------------------------------------------------------------------------------
  // place_order

  lemma PlannedStarts(rules: TextRules, m: World, t: nat, p: Placement)
    requires t !in m.threads
    ensures Do(rules, m, Spawn(t, Place(p))) == m.(threads := m.threads[t := Thread(Place(p),
      match PlanOrder(rules, p) case Ok(c) => Preparing(c) case Err(_) => Done(None))])
  {
    hide PlanOrder;
  }

  /** A PREPARED order with the same payload and key is the candidate itself. */
  lemma PreparedIsTheCandidate(a: Aggregate, c: Aggregate, id: Id)
    requires Admissible(c) && Stored(id, a) && id == c.intent.terms.id
    requires a.intent.state == Prepared && a.attempt.terms.payload == c.attempt.terms.payload
    ensures a == c
  {
  }

  /** The first repository call of a planned order. */
  lemma PreparingStores(rules: TextRules, m: World, t: nat, c: Aggregate)
    requires m.store.InMemory? && MemInv(m.store.orders) && Admissible(c)
    requires t in m.threads && m.threads[t].pc == Preparing(c)
    ensures var m', id, before := Do(rules, m, Store(t)), c.intent.terms.id, m.store.orders.byId;
      && m'.store.InMemory? && t in m'.threads && m'.trace == m.trace
      && (id !in before ==> m'.store.orders.byId == before[id := c] && m'.threads[t].pc == Claiming(id))
      && (id in before ==>
            && m'.store == m.store
            && m'.threads[t].pc ==
               if before[id].attempt.terms.payload != c.attempt.terms.payload then Done(None)
               else if before[id].intent.state == Prepared then Claiming(id)
               else Done(Some(before[id])))
  {
    var id := c.intent.terms.id;
    AdmissibleIsConsistent(c);
    if id in m.store.orders.byId {
      OrderIsStored(m.store.orders, id);
      StoredIsConsistent(id, m.store.orders.byId[id]);
    }
    assert c.intent.terms.key in m.store.orders.idByKey <==> id in m.store.orders.byId;
    assert id in m.store.orders.byId ==> m.store.orders.idByKey[c.intent.terms.key] == id;
    hide MemInv, Admissible, Stored, Consistent;
  }

  lemma AdmissibleIsConsistent(c: Aggregate)
    requires Admissible(c)
    ensures Consistent(c) && c.intent.terms.id == IntentUuid(c.intent.terms.key) && c.intent.state == Prepared
    ensures c.attempt.terms.fingerprint == Sha256(c.attempt.terms.payload)
  {
  }

  lemma StoredIsConsistent(id: Id, a: Aggregate)
    requires Stored(id, a)
    ensures Consistent(a) && a.intent.terms.id == id && a.attempt.terms.fingerprint == Sha256(a.attempt.terms.payload)
    ensures a.attempt.terms.requestKey == PurchaseKey(id) && a.attempt.terms.supplier == a.attempt.terms.payload.supplier
  {
  }

  lemma ClaimingStores(rules: TextRules, m: World, t: nat)
    requires m.store.InMemory? && t in m.threads && m.threads[t].pc.Claiming? && m.threads[t].pc.id in m.store.orders.byId
    ensures var m', id, before := Do(rules, m, Store(t)), m.threads[t].pc.id, m.store.orders.byId;
      && m'.store.InMemory? && t in m'.threads && id in m'.store.orders.byId
      && (if before[id].intent.state == Prepared then
            var b := m'.store.orders.byId[id];
            && Becomes(before[id], b, Dispatching, None, None) && m'.store.orders.byId == before[id := b]
            && m'.threads[t].pc == Purchasing(b) && m'.trace == m.trace + [Claimed(t, id)]
          else m'.store == m.store && m'.threads[t].pc == Rereading(id) && m'.trace == m.trace)
  {
  }

  lemma PurchasingCalls(rules: TextRules, w: World, t: nat, supplier: Option<Text>, supported: Option<bool>)
    requires t in w.threads && w.threads[t].pc.Purchasing?
    requires w.threads[t].pc.claimed.attempt.terms.supplier == w.threads[t].pc.claimed.attempt.terms.payload.supplier
    ensures var w', a := Do(rules, w, CallPort(t, supplier, supported)), w.threads[t].pc.claimed;
      && w'.store == w.store && t in w'.threads
      && (if supplier == Some(a.attempt.terms.supplier) then
            && w'.threads[t].pc == AwaitingPurchase(a.intent.terms.id)
            && w'.trace == w.trace + [Called(t, a.intent.terms.id, PurchasePort, a.attempt.terms.requestKey, a.attempt.terms.payload)]
          else w'.threads[t].pc == Done(None) && w'.trace == w.trace)
  {
  }

  lemma AnswerIsTraced(rules: TextRules, w: World, t: nat, answer: PortAnswer)
    requires t in w.threads && (w.threads[t].pc.AwaitingPurchase? || w.threads[t].pc.AwaitingInquiry?)
    ensures var w', pc := Do(rules, w, PortReturns(t, answer)), w.threads[t].pc;
      && w'.store == w.store && t in w'.threads
      && w'.trace == w.trace + [Answered(t, if pc.AwaitingPurchase? then pc.id else pc.started.intent.terms.id,
                                  if pc.AwaitingPurchase? then PurchasePort else ReconcilePort,
                                  if answer.Conclusive? then Some(answer.verdict) else None)]
      && Do(rules, w', Store(t)).trace == w'.trace
  {
  }

  /** A call whose checks fail raises before it reads or writes any order. */
  lemma RefusedPlacementEnds(rules: TextRules, w: World, t: nat, p: Placement)
    requires t !in w.threads && PlanOrder(rules, p).Err?
    ensures var w' := Do(rules, w, Spawn(t, Place(p)));
      w'.threads[t].pc == Done(None) && w'.store == w.store && w'.trace == w.trace
  {
    PlannedStarts(rules, w, t, p);
  }

  /** What the first two steps of a planned order come to: a new key is stored as the candidate, a
      stored order with this payload is picked up if it is still PREPARED and returned otherwise, and
      a stored order with another payload is a conflict. Nothing else changes and nobody is called. */
  lemma PlacementIsPrepared(rules: TextRules, w: World, t: nat, p: Placement)
    requires Reachable(rules, w) && t !in w.threads && PlanOrder(rules, p).Ok?
    ensures var c := PlanOrder(rules, p).value;
      var id := c.intent.terms.id;
      var w' := Do(rules, Do(rules, w, Spawn(t, Place(p))), Store(t));
      var found := Lookup(rules, w.store, id);
      && t in w'.threads && w'.trace == w.trace && SameOthers(rules, w, w', id)
      && (match found
          case None => Lookup(rules, w'.store, id) == Some(c) && w'.threads[t].pc == Claiming(id)
          case Some(a) =>
            && Lookup(rules, w'.store, id) == found
            && (if a.attempt.terms.payload != c.attempt.terms.payload then w'.threads[t].pc == Done(None)
                else if a.intent.state == Prepared then a == c && w'.threads[t].pc == Claiming(id)
                else w'.threads[t].pc == Done(Some(a))))
  {
    hide Mirrors, Do, Safe, Lookup, MemInv, Admissible, PlanOrder, Authorised, Stored;
    var c := PlanOrder(rules, p).value;
    PlannedOrderIsAuthorised(rules, p, c);
    var m := Twin(rules, w);
    MirrorsShow(rules, w, m);
    var w1, m1 := Do(rules, w, Spawn(t, Place(p))), Do(rules, m, Spawn(t, Place(p)));
    MirrorsStep(rules, w, m, Spawn(t, Place(p)));
    MirrorsShow(rules, w1, m1);
    PlannedStarts(rules, w, t, p);
    MirrorsStep(rules, w1, m1, Store(t));
    MirrorsShow(rules, Do(rules, w1, Store(t)), Do(rules, m1, Store(t)));
    PreparingStores(rules, m1, t, c);
    var id := c.intent.terms.id;
    if id in m.store.orders.byId {
      OrderIsStored(m.store.orders, id);
      var a := m.store.orders.byId[id];
      if a.intent.state == Prepared && a.attempt.terms.payload == c.attempt.terms.payload {
        PreparedIsTheCandidate(a, c, id);
      }
    }
  }

  /** A claim is won exactly while the order is PREPARED; it is then DISPATCHING. A lost claim changes
      nothing and leads to a read. */
  lemma ClaimIsDecided(rules: TextRules, w: World, t: nat)
    requires Reachable(rules, w) && t in w.threads && w.threads[t].pc.Claiming?
    ensures var id := w.threads[t].pc.id;
      var w' := Do(rules, w, Store(t));
      var found, now := Lookup(rules, w.store, id), Lookup(rules, w'.store, id);
      && found.Some? && now.Some? && t in w'.threads && SameOthers(rules, w, w', id)
      && (if found.value.intent.state == Prepared then
            && Becomes(found.value, now.value, Dispatching, None, None)
            && w'.threads[t].pc == Purchasing(now.value) && w'.trace == w.trace + [Claimed(t, id)]
            && now.value.intent.terms.id == id && now.value.attempt.terms.requestKey == PurchaseKey(id)
            && now.value.attempt.terms.supplier == now.value.attempt.terms.payload.supplier
          else now == found && w'.threads[t].pc == Rereading(id) && w'.trace == w.trace)
  {
    hide Mirrors, Do, Safe, Lookup, MemInv, Stored, Becomes;
    var m := Twin(rules, w);
    var id := w.threads[t].pc.id;
    MirrorsShow(rules, w, m);
    MirrorsIsSafe(rules, w, m);
    ClaimedIsStored(rules, m, t);
    MirrorsStep(rules, w, m, Store(t));
    MirrorsShow(rules, Do(rules, w, Store(t)), Do(rules, m, Store(t)));
    ClaimingStores(rules, m, t);
    OrderIsStored(Do(rules, m, Store(t)).store.orders, id);
    StoredIsConsistent(id, Do(rules, m, Store(t)).store.orders.byId[id]);
  }

  lemma ClaimedIsStored(rules: TextRules, m: World, t: nat)
    requires Safe(rules, m) && t in m.threads && m.threads[t].pc.Claiming?
    ensures m.threads[t].pc.id in m.store.orders.byId
  {
    hide Inv, Authorised;
    Held(rules, m.store.orders, m.threads, m.trace, t);
  }

  /** A planned order whose key is new, or was left PREPARED, runs to its end: it is claimed, the
      supplier is called once with its key and payload if it is still the supplier of the order, and the
      order ends as the answer says, told from the candidate. */
  lemma PlacementRuns(
    rules: TextRules, w: World, t: nat, p: Placement, supplier: Option<Text>, supported: Option<bool>, answer: PortAnswer)
    requires Reachable(rules, w) && t !in w.threads && PlanOrder(rules, p).Ok?
    requires var c := PlanOrder(rules, p).value;
      var found := Lookup(rules, w.store, c.intent.terms.id);
      found.Some? ==> found.value.intent.state == Prepared && found.value.attempt.terms.payload == c.attempt.terms.payload
    ensures var c := PlanOrder(rules, p).value;
      var id := c.intent.terms.id;
      var claimed := Do(rules, Do(rules, Do(rules, w, Spawn(t, Place(p))), Store(t)), Store(t));
      var called := Do(rules, claimed, CallPort(t, supplier, supported));
      var ended := Do(rules, Do(rules, called, PortReturns(t, answer)), Store(t));
      && Lookup(rules, claimed.store, id).Some?
      && var order := Lookup(rules, claimed.store, id).value;
      && Becomes(c, order, Dispatching, None, None) && SameOthers(rules, w, claimed, id)
      && called.store == claimed.store && t in called.threads
      && (if supplier == Some(c.attempt.terms.supplier) then
            && Lookup(rules, ended.store, id).Some? && t in ended.threads
            && PurchaseEnds(rules, answer, order, Lookup(rules, ended.store, id).value, ended.threads[t].pc)
            && ended.trace == w.trace + [
                 Claimed(t, id),
                 Called(t, id, PurchasePort, PurchaseKey(id), c.attempt.terms.payload),
                 Answered(t, id, PurchasePort, if answer.Conclusive? then Some(answer.verdict) else None)]
          else called.threads[t].pc == Done(None) && called.trace == w.trace + [Claimed(t, id)])
  {
    hide Reachable, Do, Lookup, PlanOrder, PurchaseEnds, Authorised, Admissible;
    var c := PlanOrder(rules, p).value;
    var id := c.intent.terms.id;
    PlannedOrderIsAuthorised(rules, p, c);
    AdmissibleIsConsistent(c);
    var started := Do(rules, w, Spawn(t, Place(p)));
    var prepared := Do(rules, started, Store(t));
    var claimed := Do(rules, prepared, Store(t));
    var called := Do(rules, claimed, CallPort(t, supplier, supported));
    ReachableSteps(rules, w, Spawn(t, Place(p)));
    ReachableSteps(rules, started, Store(t));
    ReachableSteps(rules, prepared, Store(t));
    ReachableSteps(rules, claimed, CallPort(t, supplier, supported));
    PlacementIsPrepared(rules, w, t, p);
    ClaimIsDecided(rules, prepared, t);
    PurchasingCalls(rules, claimed, t, supplier, supported);
    if supplier == Some(c.attempt.terms.supplier) {
      PurchaseAnswerIsStored(rules, called, t, answer, []);
      AnswerIsTraced(rules, called, t, answer);
      AnswerIsQuiet(rules, called, t, answer, id);
    }
  }

  /** Waiting for an answer does not move the order. */
  lemma AnswerIsQuiet(rules: TextRules, w: World, t: nat, answer: PortAnswer, id: Id)
    ensures Steps(rules, w, []) == w
    ensures Lookup(rules, Do(rules, w, PortReturns(t, answer)).store, id) == Lookup(rules, w.store, id)
  {
  }

  // ---------------------------------------------------------------------------------------------
  // recover

  lemma RecoveryLooks(rules: TextRules, m: World, t: nat, id: Id)
    requires m.store.InMemory? && t !in m.threads
    ensures var m', before := Do(rules, Do(rules, m, Spawn(t, Recover(id))), Store(t)), m.store.orders.byId;
      && m'.store == m.store && m'.trace == m.trace && t in m'.threads
      && m'.threads[t].pc ==
         if id !in before || before[id].intent.state == Prepared then Done(None)
         else if before[id].intent.state == Dispatching then Marking(id)
         else if before[id].intent.state in {Unknown, Reconciling} then Beginning(id)
         else Done(Some(before[id]))
  {
  }

  lemma RecoveryMarks(rules: TextRules, m: World, t: nat, id: Id)
    requires m.store.InMemory? && t in m.threads && m.threads[t].pc == Marking(id)
    requires id in m.store.orders.byId && m.store.orders.byId[id].intent.state == Dispatching
    ensures var m', before := Do(rules, m, Store(t)), m.store.orders.byId;
      && m'.store.InMemory? && t in m'.threads && id in m'.store.orders.byId && m'.trace == m.trace
      && Becomes(before[id], m'.store.orders.byId[id], Unknown, None, None)
      && m'.store.orders.byId == before[id := m'.store.orders.byId[id]]
      && m'.threads[t].pc == Beginning(id)
  {
  }

  lemma BeginningStores(m: MemStore, id: Id)
    requires id in m.byId && Stored(id, m.byId[id]) && m.byId[id].intent.state in {Unknown, Reconciling}
    ensures var (m', reply) := MemBegin(m, id);
      && id in m'.byId && m'.byId == m.byId[id := m'.byId[id]]
      && Becomes(m.byId[id], m'.byId[id], Reconciling, None, None)
      && reply == ReconcileReply(m'.byId[id], true)
  {
    UnsettledShowsNothing(id, m.byId[id]);
    hide Stored;
  }

  lemma RecoveryBegins(rules: TextRules, m: World, t: nat, id: Id)
    requires m.store.InMemory? && MemInv(m.store.orders) && t in m.threads && m.threads[t].pc == Beginning(id)
    requires id in m.store.orders.byId && m.store.orders.byId[id].intent.state in {Unknown, Reconciling}
    ensures var m', before := Do(rules, m, Store(t)), m.store.orders.byId;
      && m'.store.InMemory? && t in m'.threads && id in m'.store.orders.byId && m'.trace == m.trace
      && Becomes(before[id], m'.store.orders.byId[id], Reconciling, None, None)
      && m'.store.orders.byId == before[id := m'.store.orders.byId[id]]
      && m'.threads[t].pc == Inquiring(m'.store.orders.byId[id])
  {
    hide MemInv, Stored, MemBegin, Becomes;
    OrderIsStored(m.store.orders, id);
    BeginningStores(m.store.orders, id);
  }

  lemma UnsettledShowsNothing(id: Id, a: Aggregate)
    requires Stored(id, a) && !Terminal(a.intent.state)
    ensures a.attempt.status == a.intent.state && a.attempt.reference.None? && a.attempt.failure.None?
  {
  }

  lemma InquiringCalls(rules: TextRules, w: World, t: nat, supplier: Option<Text>, supported: Option<bool>)
    requires t in w.threads && w.threads[t].pc.Inquiring?
    requires w.threads[t].pc.started.attempt.terms.supplier == w.threads[t].pc.started.attempt.terms.payload.supplier
    ensures var w', a := Do(rules, w, CallPort(t, supplier, supported)), w.threads[t].pc.started;
      && w'.store == w.store && t in w'.threads
      && (if supported == Some(true) && supplier == Some(a.attempt.terms.supplier) then
            && w'.threads[t].pc == AwaitingInquiry(a)
            && w'.trace == w.trace + [Called(t, a.intent.terms.id, ReconcilePort, a.attempt.terms.requestKey, a.attempt.terms.payload)]
          else w'.trace == w.trace && w'.threads[t].pc == if supported == Some(false) then Done(Some(a)) else Done(None))
  {
  }

  /** A recovery of an order that is missing, PREPARED or terminal reads and goes: it raises, or
      returns the terminal order. */
  lemma RecoveryOfSettledEnds(rules: TextRules, w: World, t: nat, id: Id)
    requires Reachable(rules, w) && t !in w.threads
    requires var found := Lookup(rules, w.store, id);
      found.Some? ==> found.value.intent.state in {Prepared, Succeeded, FailedSafe}
    ensures var found := Lookup(rules, w.store, id);
      var w' := Do(rules, Do(rules, w, Spawn(t, Recover(id))), Store(t));
      && t in w'.threads && w'.trace == w.trace && SameOthers(rules, w, w', id) && Lookup(rules, w'.store, id) == found
      && w'.threads[t].pc == if found.Some? && found.value.intent.state != Prepared then Done(found) else Done(None)
  {
    hide Mirrors, Do, Safe, Lookup, MemInv;
    var m := RecoveryMirrors(rules, w, t, id);
    RecoveryLooks(rules, m, t, id);
  }

  /** The twin of a recovery that has looked. */
  lemma RecoveryMirrors(rules: TextRules, w: World, t: nat, id: Id) returns (m: World)
    requires Reachable(rules, w) && t !in w.threads
    ensures Mirrors(rules, w, m) && m.store.InMemory? && t !in m.threads && m.trace == w.trace
    ensures forall other :: Lookup(rules, w.store, other) == if other in m.store.orders.byId then Some(m.store.orders.byId[other]) else None
    ensures var w', m' := Do(rules, Do(rules, w, Spawn(t, Recover(id))), Store(t)), Do(rules, Do(rules, m, Spawn(t, Recover(id))), Store(t));
      && Mirrors(rules, w', m') && m'.store.InMemory? && MemInv(m'.store.orders)
      && w'.threads == m'.threads && w'.trace == m'.trace
      && forall other :: Lookup(rules, w'.store, other) == if other in m'.store.orders.byId then Some(m'.store.orders.byId[other]) else None
  {
    hide Mirrors, Do, Safe, Lookup, MemInv;
    m := Twin(rules, w);
    MirrorsShow(rules, w, m);
    var w1, m1 := Do(rules, w, Spawn(t, Recover(id))), Do(rules, m, Spawn(t, Recover(id)));
    MirrorsStep(rules, w, m, Spawn(t, Recover(id)));
    MirrorsStep(rules, w1, m1, Store(t));
    MirrorsShow(rules, Do(rules, w1, Store(t)), Do(rules, m1, Store(t)));
  }

  /** The world once a recovery of this order is about to inquire. */
  ghost function Inquired(rules: TextRules, w: World, t: nat, id: Id): World {
    var looked := Do(rules, Do(rules, w, Spawn(t, Recover(id))), Store(t));
    var found := Lookup(rules, w.store, id);
    Do(rules, if found.Some? && found.value.intent.state == Dispatching then Do(rules, looked, Store(t)) else looked, Store(t))
  }

  /** A recovery of an unsettled order stores RECONCILING before it calls anybody, by way of UNKNOWN from
      DISPATCHING. */
  lemma RecoveryReconciles(rules: TextRules, w: World, t: nat, id: Id)
    requires Reachable(rules, w) && t !in w.threads && Lookup(rules, w.store, id).Some?
    requires Lookup(rules, w.store, id).value.intent.state in {Dispatching, Unknown, Reconciling}
    ensures var w' := Inquired(rules, w, t, id);
      && Reachable(rules, w') && t in w'.threads && w'.trace == w.trace && SameOthers(rules, w, w', id)
      && Lookup(rules, w'.store, id).Some?
      && var order := Lookup(rules, w'.store, id).value;
      && Becomes(Lookup(rules, w.store, id).value, order, Reconciling, None, None)
      && order.intent.terms.id == id && order.attempt.terms.requestKey == PurchaseKey(id)
      && order.attempt.terms.supplier == order.attempt.terms.payload.supplier
      && w'.threads[t].pc == Inquiring(order)
  {
    hide Mirrors, Do, Safe, Lookup, MemInv, Stored, Reachable, Becomes;
    ReachableSteps(rules, w, Spawn(t, Recover(id)));
    ReachableSteps(rules, Do(rules, w, Spawn(t, Recover(id))), Store(t));
    var m := RecoveryMirrors(rules, w, t, id);
    RecoveryLooks(rules, m, t, id);
    var w1, m1 := Do(rules, Do(rules, w, Spawn(t, Recover(id))), Store(t)), Do(rules, Do(rules, m, Spawn(t, Recover(id))), Store(t));
    if m.store.orders.byId[id].intent.state == Dispatching {
      ReachableSteps(rules, w1, Store(t));
      MirrorsStep(rules, w1, m1, Store(t));
      RecoveryMarks(rules, m1, t, id);
      var w2, m2 := Do(rules, w1, Store(t)), Do(rules, m1, Store(t));
      MirrorsShow(rules, w2, m2);
      MarkedIsUnknown(m.store.orders.byId[id], m2.store.orders.byId[id]);
      RecoveryIsBegun(rules, w2, m2, t, id);
      BecomesAgain(m.store.orders.byId[id], m2.store.orders.byId[id], Do(rules, m2, Store(t)).store.orders.byId[id]);
    } else {
      RecoveryIsBegun(rules, w1, m1, t, id);
    }
  }

  lemma MarkedIsUnknown(a: Aggregate, b: Aggregate)
    requires Becomes(a, b, Unknown, None, None)
    ensures b.intent.state == Unknown
  {
  }

  lemma BecomesAgain(a: Aggregate, b: Aggregate, c: Aggregate)
    requires Becomes(a, b, Unknown, None, None) && Becomes(b, c, Reconciling, None, None)
    ensures Becomes(a, c, Reconciling, None, None)
  {
  }

  lemma RecoveryIsBegun(rules: TextRules, w: World, m: World, t: nat, id: Id)
    requires Reachable(rules, w) && Mirrors(rules, w, m) && m.store.InMemory? && MemInv(m.store.orders)
    requires t in m.threads && m.threads[t].pc == Beginning(id)
    requires id in m.store.orders.byId && m.store.orders.byId[id].intent.state in {Unknown, Reconciling}
    ensures var w', m' := Do(rules, w, Store(t)), Do(rules, m, Store(t));
      && Reachable(rules, w') && t in w'.threads && w'.trace == m.trace
      && m'.store.InMemory? && id in m'.store.orders.byId
      && (forall other :: Lookup(rules, w'.store, other) == if other in m'.store.orders.byId then Some(m'.store.orders.byId[other]) else None)
      && m'.store.orders.byId == m.store.orders.byId[id := m'.store.orders.byId[id]]
      && var order := m'.store.orders.byId[id];
      && Becomes(m.store.orders.byId[id], order, Reconciling, None, None)
      && order.intent.terms.id == id && order.attempt.terms.requestKey == PurchaseKey(id)
      && order.attempt.terms.supplier == order.attempt.terms.payload.supplier
      && w'.threads[t].pc == Inquiring(order)
  {
    hide Mirrors, Do, Safe, Lookup, MemInv, Stored, Reachable, Becomes;
    ReachableSteps(rules, w, Store(t));
    MirrorsStep(rules, w, m, Store(t));
    RecoveryBegins(rules, m, t, id);
    MirrorsShow(rules, Do(rules, w, Store(t)), Do(rules, m, Store(t)));
    OrderIsStored(Do(rules, m, Store(t)).store.orders, id);
    StoredIsConsistent(id, Do(rules, m, Store(t)).store.orders.byId[id]);
  }

  /** A recovery of an unsettled order runs to its end. The supplier is asked at most once, only if it
      supports reconciliation and is still the supplier of the order, under the key and payload of the
      purchase, and never to buy again; a conclusive answer is stored, and any other leaves the order
      RECONCILING. */
  lemma RecoveryRuns(
    rules: TextRules, w: World, t: nat, id: Id, supplier: Option<Text>, supported: Option<bool>, answer: PortAnswer)
    requires Reachable(rules, w) && t !in w.threads && Lookup(rules, w.store, id).Some?
    requires Lookup(rules, w.store, id).value.intent.state in {Dispatching, Unknown, Reconciling}
    ensures var found := Lookup(rules, w.store, id).value;
      var started := Inquired(rules, w, t, id);
      var called := Do(rules, started, CallPort(t, supplier, supported));
      var answered := Do(rules, called, PortReturns(t, answer));
      var ended := if answer.Conclusive? then Do(rules, answered, Store(t)) else answered;
      && Lookup(rules, started.store, id).Some?
      && var order := Lookup(rules, started.store, id).value;
      && Becomes(found, order, Reconciling, None, None) && SameOthers(rules, w, started, id)
      && called.store == started.store && t in called.threads
      && (if supported == Some(true) && supplier == Some(found.attempt.terms.supplier) then
            && ended.trace == w.trace + [
                 Called(t, id, ReconcilePort, PurchaseKey(id), found.attempt.terms.payload),
                 Answered(t, id, ReconcilePort, if answer.Conclusive? then Some(answer.verdict) else None)]
            && t in ended.threads && Lookup(rules, ended.store, id).Some?
            && var now := Lookup(rules, ended.store, id).value;
            && (match answer
                case Conclusive(Bought(reference)) =>
                  if reference in rules.safe128 then
                    Becomes(found, now, Succeeded, Some(reference), None) && ended.threads[t].pc == Done(Some(now))
                  else now == order && ended.threads[t].pc == Done(None)
                case Conclusive(RefusedSafely(code)) =>
                  Becomes(found, now, FailedSafe, None, Some(code)) && ended.threads[t].pc == Done(Some(now))
                case PortCancelled => now == order && ended.threads[t].pc == Done(None)
                case _ => now == order && ended.threads[t].pc == Done(Some(order)))
          else
            && called.trace == w.trace
            && called.threads[t].pc == if supported == Some(false) then Done(Some(order)) else Done(None))
  {
    hide Reachable, Do, Lookup, Inquired;
    var started := Inquired(rules, w, t, id);
    var called := Do(rules, started, CallPort(t, supplier, supported));
    RecoveryReconciles(rules, w, t, id);
    ReachableSteps(rules, started, CallPort(t, supplier, supported));
    InquiringCalls(rules, started, t, supplier, supported);
    if supported == Some(true) && supplier == Some(Lookup(rules, w.store, id).value.attempt.terms.supplier) {
      InquiryAnswerIsStored(rules, called, t, answer, []);
      AnswerIsTraced(rules, called, t, answer);
      AnswerIsQuiet(rules, called, t, answer, id);
    }
  }

  // ---------------------------------------------------------------------------------------------
  // deliver

  lemma CreatingStores(rules: TextRules, m: World, t: nat, id: Id)
    requires m.store.InMemory? && t !in m.threads
    requires id in m.store.orders.byId ==> MaxNumber(m.store.orders.byId[id].deliveries) == |m.store.orders.byId[id].deliveries|
    ensures var m', before := Do(rules, Do(rules, m, Spawn(t, Deliver(id))), Store(t)), m.store.orders.byId;
      && m'.store.InMemory? && t in m'.threads
      && (if id in before && before[id].intent.state == Succeeded && |before[id].deliveries| < MAX_QUANTITY then
            var n := |before[id].deliveries| + 1;
            var d := DeliveryTerms(DeliveryUuid(id, n), id, n, DeliveryKey(id, n));
            && m'.store.orders.byId == before[id := before[id].(deliveries := before[id].deliveries + [DeliveryRecord(d, Pending, None)])]
            && m'.threads[t].pc == Sending(d) && m'.trace == m.trace + [Created(t, d)]
          else m'.store == m.store && m'.threads[t].pc == Done(None) && m'.trace == m.trace)
  {
    hide MaxNumber;
  }

  lemma SendingSends(rules: TextRules, w: World, t: nat, answer: SinkAnswer)
    requires t in w.threads && w.threads[t].pc.Sending?
    ensures var d := w.threads[t].pc.terms;
      var sent := Do(rules, w, CallSink(t));
      var answered := Do(rules, sent, SinkReturns(t, answer));
      && sent.store == w.store && t in sent.threads && sent.threads[t].pc == AwaitingSink(d)
      && sent.trace == w.trace + [Sent(t, d)]
      && answered.store == w.store && answered.trace == sent.trace && t in answered.threads
      && Do(rules, answered, Store(t)).trace == sent.trace
  {
  }

  /** A delivery stores the next attempt before the sink hears of it, and only a SUCCEEDED order with
      a number left gets one; any other delivery raises and changes nothing. */
  lemma DeliveryIsCreated(rules: TextRules, w: World, t: nat, id: Id)
    requires Reachable(rules, w) && t !in w.threads
    ensures var w' := Do(rules, Do(rules, w, Spawn(t, Deliver(id))), Store(t));
      var found := Lookup(rules, w.store, id);
      && t in w'.threads && SameOthers(rules, w, w', id)
      && (if found.Some? && found.value.intent.state == Succeeded && |found.value.deliveries| < MAX_QUANTITY then
            var n := |found.value.deliveries| + 1;
            var d := DeliveryTerms(DeliveryUuid(id, n), id, n, DeliveryKey(id, n));
            && Lookup(rules, w'.store, id) == Some(found.value.(deliveries := found.value.deliveries + [DeliveryRecord(d, Pending, None)]))
            && w'.threads[t].pc == Sending(d) && w'.trace == w.trace + [Created(t, d)]
          else Lookup(rules, w'.store, id) == found && w'.threads[t].pc == Done(None) && w'.trace == w.trace)
  {
    hide Mirrors, Do, Safe, Lookup, MemInv, Stored;
    var m := Twin(rules, w);
    MirrorsShow(rules, w, m);
    var w1, m1 := Do(rules, w, Spawn(t, Deliver(id))), Do(rules, m, Spawn(t, Deliver(id)));
    MirrorsStep(rules, w, m, Spawn(t, Deliver(id)));
    MirrorsStep(rules, w1, m1, Store(t));
    MirrorsShow(rules, Do(rules, w1, Store(t)), Do(rules, m1, Store(t)));
    if id in m.store.orders.byId {
      OrderIsStored(m.store.orders, id);
      StoredIsNumbered(id, m.store.orders.byId[id]);
    }
    CreatingStores(rules, m, t, id);
  }

  lemma StoredIsNumbered(id: Id, a: Aggregate)
    requires Stored(id, a)
    ensures MaxNumber(a.deliveries) == |a.deliveries|
  {
    MaxOfNumbered(id, a.deliveries);
  }

  /** A delivery of a SUCCEEDED order runs to its end: exactly one attempt is added, sent once, and
      stored with the outcome the sink's answer stands for; nothing else of the order changes, and the
      caller gets the order as it then is, unless the call was cancelled. */
  lemma DeliveryRuns(rules: TextRules, w: World, t: nat, id: Id, answer: SinkAnswer)
    requires KnownTexts(rules) && Reachable(rules, w) && t !in w.threads && Lookup(rules, w.store, id).Some?
    requires var a := Lookup(rules, w.store, id).value; a.intent.state == Succeeded && |a.deliveries| < MAX_QUANTITY
    ensures var a := Lookup(rules, w.store, id).value;
      var n := |a.deliveries| + 1;
      var d := DeliveryTerms(DeliveryUuid(id, n), id, n, DeliveryKey(id, n));
      var sent := Do(rules, Do(rules, Do(rules, w, Spawn(t, Deliver(id))), Store(t)), CallSink(t));
      var ended := Do(rules, Do(rules, sent, SinkReturns(t, answer)), Store(t));
      var read := Do(rules, ended, Store(t));
      var now := Some(a.(deliveries := a.deliveries + [Outcome(rules, answer, d)]));
      && Lookup(rules, ended.store, id) == now && ended.trace == w.trace + [Created(t, d), Sent(t, d)]
      && t in ended.threads && t in read.threads
      && (if answer.SinkCancelled? then ended.threads[t].pc == Done(None) else read.threads[t].pc == Done(now))
  {
    hide Reachable, Do, Lookup;
    var started := Do(rules, w, Spawn(t, Deliver(id)));
    var created := Do(rules, started, Store(t));
    var sent := Do(rules, created, CallSink(t));
    var answered := Do(rules, sent, SinkReturns(t, answer));
    var ended := Do(rules, answered, Store(t));
    ReachableSteps(rules, w, Spawn(t, Deliver(id)));
    ReachableSteps(rules, started, Store(t));
    ReachableSteps(rules, created, CallSink(t));
    ReachableSteps(rules, sent, SinkReturns(t, answer));
    ReachableSteps(rules, answered, Store(t));
    DeliveryIsCreated(rules, w, t, id);
    SendingSends(rules, created, t, answer);
    SinkAnswerIsStored(rules, sent, t, answer, []);
    ThreadsStay(rules, answered, t, Store(t));
    ThreadsStay(rules, ended, t, Store(t));
    var a := Lookup(rules, w.store, id).value;
    AppendedIsReplaced(a.deliveries, DeliveryRecord(created.threads[t].pc.terms, Pending, None),
                       Outcome(rules, answer, created.threads[t].pc.terms));
    if !answer.SinkCancelled? {
      RereadReturnsTheOrder(rules, ended, t, []);
    }
  }

  lemma AppendedIsReplaced(ds: seq<DeliveryRecord>, d: DeliveryRecord, d': DeliveryRecord)
    ensures (ds + [d])[|ds| := d'] == ds + [d']
  {
  }

  lemma ThreadsStay(rules: TextRules, w: World, t: nat, step: Step)
    requires t in w.threads
    ensures t in Do(rules, w, step).threads && Steps(rules, w, []) == w
  {
    hide Move;
  }
}
