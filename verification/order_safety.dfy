/** Safety of the order service over every schedule of every number of concurrent, crashing calls. */
module OrderSafety {
  import opened Common
  import opened OrderModels
  import opened OrderMemory
  import opened OrderTables
  import opened OrderPlanning
  import opened OrderService

  // ---------------------------------------------------------------------------------------------
  // How one order can differ later

  /** What later versions of an order keep. */
  ghost predicate Later(a: Aggregate, b: Aggregate) {
    && SameObligation(a, b)
    && (a.intent.state != Prepared ==> b.intent.state != Prepared)
    && (Terminal(a.intent.state) ==> b.intent == a.intent && b.attempt == a.attempt)
    && DeliveriesExtend(a, b)
  }

  /** Every order of `m` is in `m'`, possibly later. */
  ghost predicate Grows(m: MemStore, m': MemStore) {
    forall id :: id in m.byId ==> id in m'.byId && Later(m.byId[id], m'.byId[id])
  }

  lemma EvolvesIsLater(id: Id, a: Aggregate, b: Aggregate)
    requires Evolves(id, a, b)
    ensures Later(a, b)
  {
  }

  lemma CallGrows(rules: TextRules, m: MemStore, op: Op)
    requires MemInv(m) && OpOk(op)
    ensures Grows(m, MemApply(rules, m, op).0)
  {
    hide MemInv, Later, MemApply;
    forall id | id in m.byId
      ensures id in MemApply(rules, m, op).0.byId && Later(m.byId[id], MemApply(rules, m, op).0.byId[id])
    {
      EveryOrderEvolves(rules, m, op, id);
      EvolvesIsLater(id, m.byId[id], MemApply(rules, m, op).0.byId[id]);
    }
  }

  // ---------------------------------------------------------------------------------------------
  // Histories

  ghost predicate WasClaimed(trace: seq<Event>, id: Id) {
    exists e :: e in trace && e.Claimed? && e.id == id
  }

  ghost predicate WasPurchased(trace: seq<Event>, id: Id) {
    exists e :: e in trace && e.Called? && e.port == PurchasePort && e.id == id
  }

  ghost predicate WasCalled(trace: seq<Event>, thread: nat, id: Id, port: Port) {
    exists e :: e in trace && e.Called? && e.thread == thread && e.id == id && e.port == port
  }

  ghost predicate WasCreated(trace: seq<Event>, terms: DeliveryTerms) {
    exists e :: e in trace && e.Created? && e.terms == terms
  }

  ghost predicate WasSent(trace: seq<Event>, terms: DeliveryTerms) {
    exists e :: e in trace && e.Sent? && e.terms == terms
  }

  /** The supplier answered a call about this order with this verdict. */
  ghost predicate Evidence(trace: seq<Event>, id: Id, verdict: Verdict) {
    exists e :: e in trace && e.Answered? && e.id == id && e.verdict == Some(verdict)
  }

  /** What must have happened, and what must not have happened, before an event: one claim per order,
      one purchase call per order and only by the thread that claimed it, no answer without a call,
      one creation and one sending per delivery attempt. */
  ghost predicate Justified(before: seq<Event>, e: Event) {
    match e
    case Claimed(_, id) => !WasClaimed(before, id)
    case Called(t, id, port, _, _) => port == PurchasePort ==> Claimed(t, id) in before && !WasPurchased(before, id)
    case Answered(t, id, port, _) => WasCalled(before, t, id, port)
    case Created(_, terms) => !WasCreated(before, terms)
    case Sent(t, terms) => Created(t, terms) in before && !WasSent(before, terms)
  }

  ghost predicate Orderly(trace: seq<Event>) {
    trace == [] || (Orderly(trace[..|trace| - 1]) && Justified(trace[..|trace| - 1], trace[|trace| - 1]))
  }

  /** Only one thread ever claims an order. */
  lemma {:induction false} OneClaimant(trace: seq<Event>, t: nat, t': nat, id: Id)
    requires Orderly(trace) && Claimed(t, id) in trace && Claimed(t', id) in trace
    ensures t == t'
  {
    var front, last := trace[..|trace| - 1], trace[|trace| - 1];
    if last == Claimed(t, id) || last == Claimed(t', id) {
      assert Justified(front, last);
      assert Claimed(t, id) !in front && Claimed(t', id) !in front;
    } else {
      assert Claimed(t, id) in front && Claimed(t', id) in front;
      OneClaimant(front, t, t', id);
    }
  }

  /** Only one thread ever creates a delivery attempt. */
  lemma {:induction false} OneCreator(trace: seq<Event>, t: nat, t': nat, terms: DeliveryTerms)
    requires Orderly(trace) && Created(t, terms) in trace && Created(t', terms) in trace
    ensures t == t'
  {
    var front, last := trace[..|trace| - 1], trace[|trace| - 1];
    if last == Created(t, terms) || last == Created(t', terms) {
      assert Justified(front, last);
      assert Created(t, terms) !in front && Created(t', terms) !in front;
    } else {
      assert Created(t, terms) in front && Created(t', terms) in front;
      OneCreator(front, t, t', terms);
    }
  }

  // ---------------------------------------------------------------------------------------------
  // The invariant

  /** The attempt is stored and still PENDING. */
  ghost predicate Open(m: MemStore, d: DeliveryTerms) {
    && d.orderId in m.byId
    && 1 <= d.number <= |m.byId[d.orderId].deliveries|
    && m.byId[d.orderId].deliveries[d.number - 1] == DeliveryRecord(d, Pending, None)
  }

  /** The caller of this thread asked for exactly the stored order, and may buy it. */
  ghost predicate Asked(rules: TextRules, m: MemStore, th: Thread, id: Id) {
    && th.call.Place?
    && id in m.byId
    && th.call.placement.request.idempotencyKey == m.byId[id].intent.terms.key
    && Authorised(th.call.placement, m.byId[id].attempt.terms.payload)
  }

  /** A snapshot that was read from the store and is still true of what cannot change. */
  ghost predicate Faithful(m: MemStore, a: Aggregate) {
    a.intent.terms.id in m.byId && Later(a, m.byId[a.intent.terms.id])
  }

  ghost predicate ThreadHolds(rules: TextRules, m: MemStore, trace: seq<Event>, t: nat, th: Thread) {
    match th.pc
    case Preparing(c) => th.call.Place? && PlanOrder(rules, th.call.placement) == Ok(c)
    case Claiming(id) => Asked(rules, m, th, id)
    case Purchasing(a) =>
      && Asked(rules, m, th, a.intent.terms.id) && Faithful(m, a) && a.intent.state != Prepared
      && Claimed(t, a.intent.terms.id) in trace && !WasPurchased(trace, a.intent.terms.id)
    case AwaitingPurchase(id) => th.call.Place? && WasCalled(trace, t, id, PurchasePort)
    case Recording(id, verdict, _) => !th.call.Deliver? && (verdict.Some? ==> Evidence(trace, id, verdict.value))
    case Looking(id) => th.call == Recover(id)
    case Marking(id) => th.call == Recover(id)
    case Beginning(id) => th.call == Recover(id)
    case Inquiring(a) => th.call == Recover(a.intent.terms.id) && Faithful(m, a) && a.intent.state != Prepared
    case AwaitingInquiry(a) =>
      th.call == Recover(a.intent.terms.id) && Faithful(m, a) && WasCalled(trace, t, a.intent.terms.id, ReconcilePort)
    case Creating(id) => th.call == Deliver(id)
    case Sending(d) => th.call == Deliver(d.orderId) && Open(m, d) && Created(t, d) in trace && !WasSent(trace, d)
    case AwaitingSink(d) => th.call == Deliver(d.orderId) && Open(m, d) && Created(t, d) in trace
    case Finishing(d, succeeded, failure, _) =>
      && th.call == Deliver(d.orderId) && Open(m, d) && Created(t, d) in trace
      && (!succeeded ==> failure.Some? && failure.value in {rules.deliveryCancelled, rules.deliveryFailed, rules.deliverySinkError})
    case Rereading(_) => true
    case Done(result) => result.Some? ==> Faithful(m, result.value)
  }

  /** The attempt is stored under its number. */
  ghost predicate Kept(m: MemStore, d: DeliveryTerms) {
    && d.orderId in m.byId && 1 <= d.number <= |m.byId[d.orderId].deliveries|
    && m.byId[d.orderId].deliveries[d.number - 1].terms == d
  }

  /** What every recorded event says about the store and the threads of now. */
  ghost predicate EventHolds(rules: TextRules, m: MemStore, threads: map<nat, Thread>, e: Event) {
    match e
    case Claimed(t, id) => id in m.byId && m.byId[id].intent.state != Prepared
    case Called(t, id, port, key, payload) =>
      && id in m.byId && m.byId[id].intent.state != Prepared
      && key == m.byId[id].attempt.terms.requestKey && payload == m.byId[id].attempt.terms.payload
      && t in threads
      && (port == PurchasePort ==> Asked(rules, m, threads[t], id))
      && (port == ReconcilePort ==> threads[t].call == Recover(id))
    case Answered(_, _, _, _) => true
    case Created(t, d) => Kept(m, d) && t in threads && threads[t].call == Deliver(d.orderId)
    case Sent(_, d) => Kept(m, d)
  }

  function VerdictOf(a: Aggregate): Option<Verdict> {
    if a.intent.state == Succeeded && a.attempt.reference.Some? then Some(Bought(a.attempt.reference.value))
    else if a.intent.state == FailedSafe && a.attempt.failure.Some? then Some(RefusedSafely(a.attempt.failure.value))
    else None
  }

  ghost predicate OrderHolds(m: MemStore, trace: seq<Event>, id: Id)
    requires id in m.byId
  {
    && (VerdictOf(m.byId[id]).Some? ==> Evidence(trace, id, VerdictOf(m.byId[id]).value))
    && (m.byId[id].intent.state == Prepared ==> !WasClaimed(trace, id))
  }

  ghost predicate Inv(rules: TextRules, m: MemStore, threads: map<nat, Thread>, trace: seq<Event>) {
    && MemInv(m)
    && Orderly(trace)
    && (forall e :: e in trace ==> EventHolds(rules, m, threads, e))
    && (forall t :: t in threads ==> ThreadHolds(rules, m, trace, t, threads[t]))
    && (forall id :: id in m.byId ==> OrderHolds(m, trace, id))
  }

  // ---------------------------------------------------------------------------------------------
  // What a step leaves alone

  lemma LaterIsTransitive(a: Aggregate, b: Aggregate, c: Aggregate)
    requires Later(a, b) && Later(b, c)
    ensures Later(a, c)
  {
  }

  lemma FaithfulGrows(m: MemStore, m': MemStore, a: Aggregate)
    requires Grows(m, m') && Faithful(m, a)
    ensures Faithful(m', a)
  {
    var id := a.intent.terms.id;
    LaterIsTransitive(a, m.byId[id], m'.byId[id]);
  }

  lemma AskedGrows(rules: TextRules, m: MemStore, m': MemStore, th: Thread, id: Id)
    requires Grows(m, m') && Asked(rules, m, th, id)
    ensures Asked(rules, m', th, id)
  {
    assert Later(m.byId[id], m'.byId[id]);
  }

  /** What a step may add to the history: at most one event, of its own thread, and a justified one. */
  ghost predicate Adds(trace: seq<Event>, events: seq<Event>, actor: nat) {
    events == [] || (|events| == 1 && events[0].thread == actor && Justified(trace, events[0]))
  }

  lemma AddsKeepsOrderly(trace: seq<Event>, events: seq<Event>, actor: nat)
    requires Orderly(trace) && Adds(trace, events, actor)
    ensures Orderly(trace + events)
  {
    if events == [] {
      assert trace + events == trace;
    } else {
      assert (trace + events)[..|trace|] == trace;
    }
  }

  /** The step of one thread does not disturb another thread. */
  lemma OtherThreadHolds(
    rules: TextRules, m: MemStore, m': MemStore, trace: seq<Event>, events: seq<Event>, actor: nat, t: nat, th: Thread)
    requires ThreadHolds(rules, m, trace, t, th) && t != actor
    requires Grows(m, m') && Orderly(trace) && Adds(trace, events, actor)
    requires forall d :: Open(m, d) && Created(t, d) in trace ==> Open(m', d)
    ensures ThreadHolds(rules, m', trace + events, t, th)
  {
    hide Asked, PlanOrder, Later;
    if th.pc.Claiming? {
      AskedGrows(rules, m, m', th, th.pc.id);
    } else if th.pc.Purchasing? {
      var id := th.pc.claimed.intent.terms.id;
      AskedGrows(rules, m, m', th, id);
      FaithfulGrows(m, m', th.pc.claimed);
      if events != [] && events[0].Called? && events[0].port == PurchasePort && events[0].id == id {
        OneClaimant(trace, actor, t, id);
      }
    } else if th.pc.Sending? {
      if events != [] && events[0].Sent? && events[0].terms == th.pc.terms {
        OneCreator(trace, actor, t, th.pc.terms);
      }
    } else if th.pc.Inquiring? || th.pc.AwaitingInquiry? {
      FaithfulGrows(m, m', th.pc.started);
    } else if th.pc.Done? && th.pc.result.Some? {
      FaithfulGrows(m, m', th.pc.result.value);
    }
  }

  lemma OldEventHolds(
    rules: TextRules, m: MemStore, m': MemStore, threads: map<nat, Thread>, threads': map<nat, Thread>, e: Event)
    requires EventHolds(rules, m, threads, e) && Grows(m, m')
    requires forall t :: t in threads ==> t in threads' && threads'[t].call == threads[t].call
    ensures EventHolds(rules, m', threads', e)
  {
    hide Authorised;
  }

  // ---------------------------------------------------------------------------------------------
  // What a repository call does to the orders

  /** An open attempt stays open under every call but its own finish. */
  lemma OpenKept(rules: TextRules, m: MemStore, op: Op, d: DeliveryTerms)
    requires MemInv(m) && OpOk(op) && Open(m, d)
    requires op.FinishDelivery? ==> op.delivery != d.id
    ensures Open(MemApply(rules, m, op).0, d)
  {
    hide Stored;
    EveryOrderEvolves(rules, m, op, d.orderId);
    if op.FinishDelivery? && Present(m, op.delivery) {
      var place := Locate(m, op.delivery);
      FinishEvolves(rules, m, place.0, place.1, op.succeeded, op.failure);
    }
  }

  /** A verdict enters the store only through the call that records it. */
  lemma VerdictIsRecorded(rules: TextRules, m: MemStore, op: Op, id: Id)
    requires MemInv(m) && OpOk(op) && id in MemApply(rules, m, op).0.byId
    requires VerdictOf(MemApply(rules, m, op).0.byId[id]).Some?
    ensures var v := VerdictOf(MemApply(rules, m, op).0.byId[id]);
      || (id in m.byId && VerdictOf(m.byId[id]) == v)
      || (op.RecordSuccess? && op.id == id && v == Some(Bought(op.reference)))
      || (op.RecordSafeFailure? && op.id == id && v == Some(RefusedSafely(op.code)))
  {
    hide MemInv;
    if op.CreateDelivery? || op.FinishDelivery? {
      if id in m.byId {
        TerminalIsFinal(rules, m, op, id);
      } else {
        var changed := OneOrderEvolves(rules, m, op);
      }
    }
  }

  /** An order is PREPARED only because it was, or because it is new. */
  lemma PreparedIsOld(rules: TextRules, m: MemStore, op: Op, id: Id)
    requires MemInv(m) && OpOk(op) && id in m.byId && id in MemApply(rules, m, op).0.byId
    requires MemApply(rules, m, op).0.byId[id].intent.state == Prepared
    ensures m.byId[id].intent.state == Prepared
  {
    hide MemInv, MemApply;
    CallGrows(rules, m, op);
    assert Later(m.byId[id], MemApply(rules, m, op).0.byId[id]);
  }

  lemma RecordReplyIsStored(rules: TextRules, m: MemStore, op: Op)
    requires op.RecordSuccess? || op.RecordSafeFailure? || op.RecordUnknown?
    requires op.id in m.byId ==> m.byId[op.id].intent.terms.id == op.id
    ensures var (m', reply) := MemApply(rules, m, op);
      && !reply.ReconcileReply?
      && (reply.AggregateReply? ==>
            op.id in m'.byId && reply.aggregate == m'.byId[op.id] && reply.aggregate.intent.terms.id == op.id)
  {
  }

  lemma ReadReplyIsStored(rules: TextRules, m: MemStore, op: Op)
    requires op.Get? || op.ClaimPrepared? || op.BeginReconciliation?
    requires op.id in m.byId ==> m.byId[op.id].intent.terms.id == op.id
    ensures var (m', reply) := MemApply(rules, m, op);
      reply.AggregateReply? || reply.ReconcileReply? ==>
        && op.id in m'.byId && reply.aggregate == m'.byId[op.id] && reply.aggregate.intent.terms.id == op.id
        && (reply.ReconcileReply? ==> reply.aggregate.intent.state != Prepared)
  {
  }

  /** A snapshot in a reply is the stored order itself. */
  lemma ReplyIsStored(rules: TextRules, m: MemStore, op: Op)
    requires MemInv(m) && !op.Prepare? && !op.CreateDelivery? && !op.FinishDelivery?
    ensures var (m', reply) := MemApply(rules, m, op);
      reply.AggregateReply? || reply.ReconcileReply? ==>
        && op.id in m'.byId && reply.aggregate == m'.byId[op.id] && reply.aggregate.intent.terms.id == op.id
        && (reply.ReconcileReply? ==> reply.aggregate.intent.state != Prepared)
  {
    hide MemInv, Stored, MemApply;
    if op.id in m.byId {
      OrderIsStored(m, op.id);
      StoredHasItsId(op.id, m.byId[op.id]);
    }
    if op.RecordSuccess? || op.RecordSafeFailure? || op.RecordUnknown? {
      RecordReplyIsStored(rules, m, op);
    } else {
      ReadReplyIsStored(rules, m, op);
    }
  }

  lemma StoredHasItsId(id: Id, a: Aggregate)
    requires Stored(id, a)
    ensures a.intent.terms.id == id
  {
  }

  lemma PrepareReplyIsStored(rules: TextRules, m: MemStore, c: Aggregate)
    requires MemInv(m) && Admissible(c) && MemPrepare(m, c).1.PrepareReply?
    ensures var (m', reply) := MemPrepare(m, c);
      && c.intent.terms.id in m'.byId && reply.aggregate == m'.byId[c.intent.terms.id]
      && reply.aggregate.intent.terms.id == c.intent.terms.id
      && reply.aggregate.intent.terms.key == c.intent.terms.key
      && SameRequest(reply.aggregate, c)
  {
    var key := c.intent.terms.key;
    if key in m.idByKey {
      assert Stored(IntentUuid(key), m.byId[IntentUuid(key)]);
    }
  }

  lemma Held(rules: TextRules, m: MemStore, threads: map<nat, Thread>, trace: seq<Event>, t: nat)
    requires Inv(rules, m, threads, trace)
    ensures t in threads ==> ThreadHolds(rules, m, trace, t, threads[t])
    ensures forall id :: id in m.byId ==> OrderHolds(m, trace, id)
  {
    hide ThreadHolds, MemInv, Orderly, EventHolds;
  }

  lemma PreparedThreadHolds(rules: TextRules, m: MemStore, trace: seq<Event>, t: nat, th: Thread)
    requires MemInv(m) && th.pc.Preparing? && ThreadHolds(rules, m, trace, t, th)
    ensures var (m', reply) := MemApply(rules, m, Prepare(th.pc.candidate));
      ThreadHolds(rules, m', trace, t, th.(pc := AfterReply(th.pc, reply)))
  {
    hide MemPrepare, MemInv, PlanOrder, Authorised, Stored;
    PlannedOrderIsAuthorised(rules, th.call.placement, th.pc.candidate);
    if MemPrepare(m, th.pc.candidate).1.PrepareReply? {
      PrepareReplyIsStored(rules, m, th.pc.candidate);
    }
  }

  /** What a claim that is granted gives its thread. */
  lemma ClaimedThreadHolds(rules: TextRules, m: MemStore, trace: seq<Event>, t: nat, th: Thread, a: Aggregate)
    requires Asked(rules, m, th, a.intent.terms.id) && m.byId[a.intent.terms.id] == a && a.intent.state != Prepared
    requires !WasPurchased(trace, a.intent.terms.id)
    ensures ThreadHolds(rules, m, trace + [Claimed(t, a.intent.terms.id)], t, th.(pc := Purchasing(a)))
  {
    hide Authorised;
    var events := trace + [Claimed(t, a.intent.terms.id)];
    assert events[|trace|] == Claimed(t, a.intent.terms.id);
    LaterIsReflexive(a);
    hide Later;
  }

  lemma LaterIsReflexive(a: Aggregate)
    ensures Later(a, a)
  {
  }

  lemma ClaimReply(rules: TextRules, m: MemStore, id: Id)
    requires id in m.byId
    ensures var (m', reply) := MemApply(rules, m, ClaimPrepared(id));
      && id in m'.byId && SameObligation(m.byId[id], m'.byId[id])
      && (if reply.AggregateReply? then reply.aggregate == m'.byId[id] && m'.byId[id].intent.state != Prepared && m.byId[id].intent.state == Prepared
          else reply.NotClaimed?)
  {
  }

  /** A called order has left PREPARED. */
  lemma CalledHasLeft(rules: TextRules, m: MemStore, threads: map<nat, Thread>, trace: seq<Event>, e: Event)
    requires Inv(rules, m, threads, trace) && e in trace && e.Called?
    ensures e.id in m.byId && m.byId[e.id].intent.state != Prepared
  {
    assert EventHolds(rules, m, threads, e);
    hide MemInv, Orderly, OrderHolds, ThreadHolds;
  }

  lemma UnclaimedIsUnpurchased(
    rules: TextRules, m: MemStore, threads: map<nat, Thread>, trace: seq<Event>, id: Id)
    requires Inv(rules, m, threads, trace) && id in m.byId && m.byId[id].intent.state == Prepared
    ensures !WasClaimed(trace, id) && !WasPurchased(trace, id)
  {
    assert OrderHolds(m, trace, id);
    hide Inv;
    forall e | e in trace && e.Called? ensures e.id != id {
      CalledHasLeft(rules, m, threads, trace, e);
    }
  }

  /** A won claim: the order was PREPARED, so nobody claimed it or called the supplier for it before. */
  lemma ClaimHolds(
    rules: TextRules, m: MemStore, threads: map<nat, Thread>, trace: seq<Event>, t: nat, th: Thread)
    requires Inv(rules, m, threads, trace) && th.pc.Claiming? && ThreadHolds(rules, m, trace, t, th)
    ensures var (m', reply) := MemApply(rules, m, ClaimPrepared(th.pc.id));
      && ThreadHolds(rules, m', trace + StoreEvents(t, th.pc, reply), t, th.(pc := AfterReply(th.pc, reply)))
      && Adds(trace, StoreEvents(t, th.pc, reply), t)
      && (reply.AggregateReply? ==> th.pc.id in m'.byId && m'.byId[th.pc.id].intent.state != Prepared)
  {
    var id := th.pc.id;
    assert Asked(rules, m, th, id);
    InvHasMemInv(rules, m, threads, trace);
    OrderIsStored(m, id);
    StoredHasItsId(id, m.byId[id]);
    ClaimReply(rules, m, id);
    hide Inv, MemApply, Authorised, Stored, MemInv, ThreadHolds, WasPurchased;
    var (m', reply) := MemApply(rules, m, ClaimPrepared(id));
    RereadingHolds(rules, m', trace + [], t, th, id);
    if reply.AggregateReply? {
      UnclaimedIsUnpurchased(rules, m, threads, trace, id);
      ClaimedThreadHolds(rules, m', trace, t, th, reply.aggregate);
    }
  }

  lemma RereadingHolds(rules: TextRules, m: MemStore, trace: seq<Event>, t: nat, th: Thread, id: Id)
    ensures ThreadHolds(rules, m, trace, t, th.(pc := Rereading(id)))
  {
  }

  /** A new attempt has not been created or sent before: the trace knows only attempts that are stored. */
  lemma NewAttemptIsNew(
    rules: TextRules, m: MemStore, threads: map<nat, Thread>, trace: seq<Event>, id: Id, e: Event)
    requires Inv(rules, m, threads, trace) && id in m.byId
    requires e in trace && (e.Created? || e.Sent?)
    ensures e.terms != NewDelivery(id, |m.byId[id].deliveries| + 1).terms
  {
    assert EventHolds(rules, m, threads, e);
    hide MemInv, Orderly, OrderHolds, ThreadHolds;
  }

  lemma CreationReply(rules: TextRules, m: MemStore, id: Id)
    requires MemInv(m)
    ensures var (m', reply) := MemApply(rules, m, CreateDelivery(id));
      if reply.DeliveryReply? then
        id in m.byId && reply.delivery == NewDelivery(id, |m.byId[id].deliveries| + 1) && Open(m', reply.delivery.terms)
      else reply.Refused?
  {
    if id in m.byId {
      OrderIsStored(m, id);
      MaxOfNumbered(id, m.byId[id].deliveries);
    }
    hide MemInv, SoundTerms, MaxNumber;
  }

  /** What an attempt that is granted gives its thread. */
  lemma CreatedThreadHolds(rules: TextRules, m: MemStore, trace: seq<Event>, t: nat, th: Thread, d: DeliveryTerms)
    requires th.call == Deliver(d.orderId) && Open(m, d) && !WasSent(trace, d)
    ensures ThreadHolds(rules, m, trace + [Created(t, d)], t, th.(pc := Sending(d)))
  {
    hide Open;
    assert (trace + [Created(t, d)])[|trace|] == Created(t, d);
  }

  lemma CreationHolds(
    rules: TextRules, m: MemStore, threads: map<nat, Thread>, trace: seq<Event>, t: nat, th: Thread)
    requires Inv(rules, m, threads, trace) && th.pc.Creating? && ThreadHolds(rules, m, trace, t, th)
    ensures var (m', reply) := MemApply(rules, m, CreateDelivery(th.pc.id));
      && ThreadHolds(rules, m', trace + StoreEvents(t, th.pc, reply), t, th.(pc := AfterReply(th.pc, reply)))
      && Adds(trace, StoreEvents(t, th.pc, reply), t)
      && (reply.DeliveryReply? ==> Kept(m', reply.delivery.terms) && reply.delivery.terms.orderId == th.pc.id)
  {
    var id := th.pc.id;
    InvHasMemInv(rules, m, threads, trace);
    CreationReply(rules, m, id);
    hide Inv, MemApply, MemInv;
    var (m', reply) := MemApply(rules, m, CreateDelivery(id));
    if reply.DeliveryReply? {
      forall e | e in trace && (e.Created? || e.Sent?) ensures e.terms != reply.delivery.terms {
        NewAttemptIsNew(rules, m, threads, trace, id, e);
      }
      CreatedThreadHolds(rules, m', trace, t, th, reply.delivery.terms);
    }
  }

  lemma OtherStoreHolds(rules: TextRules, m: MemStore, trace: seq<Event>, t: nat, th: Thread)
    requires MemInv(m) && ThreadHolds(rules, m, trace, t, th)
    requires PendingOp(th.pc).Some? && !th.pc.Preparing? && !th.pc.Claiming? && !th.pc.Creating?
    ensures var (m', reply) := MemApply(rules, m, PendingOp(th.pc).value);
      ThreadHolds(rules, m', trace, t, th.(pc := AfterReply(th.pc, reply)))
  {
    hide MemApply, MemInv, Stored;
    if !th.pc.Finishing? {
      ReplyIsStored(rules, m, PendingOp(th.pc).value);
    }
  }

  // ---------------------------------------------------------------------------------------------
  // Every step keeps the invariant

  /** A call that goes out, or comes back, from where a thread stands. */
  lemma PortHolds(rules: TextRules, m: MemStore, trace: seq<Event>, step: Step, th: Thread)
    requires ThreadHolds(rules, m, trace, step.thread, th) && !step.Spawn? && !step.Store?
    ensures var (b, pc, events) := Move(rules, InMemory(m), th, step);
      && b == InMemory(m) && Adds(trace, events, step.thread)
      && ThreadHolds(rules, m, trace + events, step.thread, th.(pc := pc))
  {
    hide PlanOrder, Authorised, Later;
    var t := step.thread;
    var (b, pc, events) := Move(rules, InMemory(m), th, step);
    assert trace + [] == trace;
    if events != [] {
      assert events[0] in trace + events;
    }
  }

  lemma StoreHolds(
    rules: TextRules, m: MemStore, threads: map<nat, Thread>, trace: seq<Event>, t: nat, th: Thread)
    requires Inv(rules, m, threads, trace) && ThreadHolds(rules, m, trace, t, th) && PendingOp(th.pc).Some?
    ensures var (m', reply) := MemApply(rules, m, PendingOp(th.pc).value);
      && Adds(trace, StoreEvents(t, th.pc, reply), t)
      && ThreadHolds(rules, m', trace + StoreEvents(t, th.pc, reply), t, th.(pc := AfterReply(th.pc, reply)))
  {
    hide Inv, MemInv, MemApply, Orderly, ThreadHolds, AfterReply;
    InvHasMemInv(rules, m, threads, trace);
    assert trace + [] == trace;
    if th.pc.Preparing? {
      PreparedThreadHolds(rules, m, trace, t, th);
    } else if th.pc.Claiming? {
      ClaimHolds(rules, m, threads, trace, t, th);
    } else if th.pc.Creating? {
      CreationHolds(rules, m, threads, trace, t, th);
    } else {
      OtherStoreHolds(rules, m, trace, t, th);
    }
  }

  /** The actor's own position after any step it can take. */
  lemma ActorHolds(
    rules: TextRules, m: MemStore, threads: map<nat, Thread>, trace: seq<Event>, step: Step)
    requires Inv(rules, m, threads, trace) && !step.Spawn? && step.thread in threads
    ensures var th := threads[step.thread];
      var (b, pc, events) := Move(rules, InMemory(m), th, step);
      && b.InMemory? && Adds(trace, events, step.thread)
      && ThreadHolds(rules, b.orders, trace + events, step.thread, th.(pc := pc))
  {
    hide Inv, MemApply, Adds, ThreadHolds, AfterReply, StoreEvents;
    var t := step.thread;
    var th := threads[t];
    Held(rules, m, threads, trace, t);
    if step.Store? && PendingOp(th.pc).Some? {
      StoreHolds(rules, m, threads, trace, t, th);
    } else if step.Store? {
      assert trace + [] == trace;
      NothingAdds(trace, t);
    } else {
      PortHolds(rules, m, trace, step, th);
    }
  }

  lemma NothingAdds(trace: seq<Event>, t: nat)
    ensures Adds(trace, [], t)
  {
  }

  lemma PendingOpIsOk(rules: TextRules, m: MemStore, trace: seq<Event>, t: nat, th: Thread)
    requires ThreadHolds(rules, m, trace, t, th) && PendingOp(th.pc).Some?
    ensures CallOk(rules, PendingOp(th.pc).value) && OpOk(PendingOp(th.pc).value)
  {
    hide PlanOrder, Asked, Authorised, Stored;
    if th.pc.Preparing? {
      PlannedOrderIsAuthorised(rules, th.call.placement, th.pc.candidate);
    }
  }

  lemma PortEventHolds(
    rules: TextRules, m: MemStore, threads: map<nat, Thread>, trace: seq<Event>, step: Step, th: Thread, e: Event)
    requires ThreadHolds(rules, m, trace, step.thread, th) && !step.Spawn? && !step.Store?
    requires step.thread in threads && threads[step.thread].call == th.call
    requires e in Move(rules, InMemory(m), th, step).2
    ensures EventHolds(rules, m, threads, e) && !e.Claimed?
  {
    hide PlanOrder, Authorised;
  }

  lemma CreationCall(rules: TextRules, m: MemStore, trace: seq<Event>, t: nat, th: Thread)
    requires ThreadHolds(rules, m, trace, t, th) && th.pc.Creating?
    ensures th.call == Deliver(th.pc.id)
  {
  }

  /** The event a step adds says something true of the store after it. */
  lemma NewEventHolds(
    rules: TextRules, m: MemStore, threads: map<nat, Thread>, trace: seq<Event>, step: Step, e: Event)
    requires Inv(rules, m, threads, trace) && !step.Spawn? && step.thread in threads
    requires e in Move(rules, InMemory(m), threads[step.thread], step).2
    ensures var th := threads[step.thread];
      var (b, pc, events) := Move(rules, InMemory(m), th, step);
      && b.InMemory? && EventHolds(rules, b.orders, threads[step.thread := th.(pc := pc)], e)
      && (e.Claimed? ==> e.id in b.orders.byId && b.orders.byId[e.id].intent.state != Prepared)
  {
    hide Inv, MemApply, ThreadHolds;
    var t := step.thread;
    var th := threads[t];
    Held(rules, m, threads, trace, t);
    if step.Store? {
      if th.pc.Claiming? {
        ClaimHolds(rules, m, threads, trace, t, th);
      } else if th.pc.Creating? {
        CreationCall(rules, m, trace, t, th);
        CreationHolds(rules, m, threads, trace, t, th);
      }
    } else {
      hide EventHolds;
      var (b, pc, events) := Move(rules, InMemory(m), th, step);
      PortEventHolds(rules, m, threads[t := th.(pc := pc)], trace, step, th, e);
    }
  }

  lemma RecordingHasEvidence(rules: TextRules, m: MemStore, trace: seq<Event>, t: nat, th: Thread)
    requires ThreadHolds(rules, m, trace, t, th) && PendingOp(th.pc).Some?
    ensures var op := PendingOp(th.pc).value;
      && (op.RecordSuccess? ==> Evidence(trace, op.id, Bought(op.reference)))
      && (op.RecordSafeFailure? ==> Evidence(trace, op.id, RefusedSafely(op.code)))
  {
  }

  /** Every order, old or new, is backed by the history. */
  lemma EveryOrderHolds(
    rules: TextRules, m: MemStore, threads: map<nat, Thread>, trace: seq<Event>, step: Step, id: Id)
    requires Inv(rules, m, threads, trace) && !step.Spawn? && step.thread in threads
    requires var b := Move(rules, InMemory(m), threads[step.thread], step).0; b.InMemory? && id in b.orders.byId
    ensures var (b, _, events) := Move(rules, InMemory(m), threads[step.thread], step);
      OrderHolds(b.orders, trace + events, id)
  {
    hide Inv, ThreadHolds, Evidence, CallOk, Stored, MemApply, OrderHolds, AfterReply, EventHolds, Admissible;
    var t := step.thread;
    var th := threads[t];
    var (b, pc, events) := Move(rules, InMemory(m), th, step);
    Held(rules, m, threads, trace, t);
    forall e | e in events && e.Claimed? ensures e.id in b.orders.byId && b.orders.byId[e.id].intent.state != Prepared {
      NewEventHolds(rules, m, threads, trace, step, e);
    }
    if step.Store? && PendingOp(th.pc).Some? {
      PendingOpIsOk(rules, m, trace, t, th);
      RecordingHasEvidence(rules, m, trace, t, th);
      BackedByCall(rules, m, threads, trace, t, PendingOp(th.pc).value, events, id);
    } else {
      BackedByHistory(m, trace, events, id);
    }
  }

  lemma BackedByHistory(m: MemStore, trace: seq<Event>, events: seq<Event>, id: Id)
    requires id in m.byId && OrderHolds(m, trace, id)
    requires forall e :: e in events ==> !e.Claimed?
    ensures OrderHolds(m, trace + events, id)
  {
    if VerdictOf(m.byId[id]).Some? {
      var e :| e in trace && e.Answered? && e.id == id && e.verdict == Some(VerdictOf(m.byId[id]).value);
      assert e in trace + events;
    }
  }

  /** The same across a repository call. */
  lemma VerdictIsBacked(
    rules: TextRules, m: MemStore, threads: map<nat, Thread>, trace: seq<Event>, op: Op, events: seq<Event>, id: Id)
    requires Inv(rules, m, threads, trace) && OpOk(op) && id in MemApply(rules, m, op).0.byId
    requires op.RecordSuccess? ==> Evidence(trace, op.id, Bought(op.reference))
    requires op.RecordSafeFailure? ==> Evidence(trace, op.id, RefusedSafely(op.code))
    requires VerdictOf(MemApply(rules, m, op).0.byId[id]).Some?
    ensures Evidence(trace + events, id, VerdictOf(MemApply(rules, m, op).0.byId[id]).value)
  {
    var verdict := VerdictOf(MemApply(rules, m, op).0.byId[id]);
    InvHasMemInv(rules, m, threads, trace);
    VerdictIsRecorded(rules, m, op, id);
    if id in m.byId && VerdictOf(m.byId[id]) == verdict {
      assert OrderHolds(m, trace, id);
    }
    hide Inv, MemApply, OpOk;
    var e :| e in trace && e.Answered? && e.id == id && e.verdict == verdict;
    assert e in trace + events;
  }

  lemma PreparedIsUnclaimed(
    rules: TextRules, m: MemStore, threads: map<nat, Thread>, trace: seq<Event>, op: Op, events: seq<Event>, id: Id)
    requires Inv(rules, m, threads, trace) && OpOk(op) && id in MemApply(rules, m, op).0.byId
    requires forall e :: e in events && e.Claimed? && e.id == id ==> MemApply(rules, m, op).0.byId[id].intent.state != Prepared
    requires MemApply(rules, m, op).0.byId[id].intent.state == Prepared
    ensures !WasClaimed(trace + events, id)
  {
    hide MemApply, OpOk, MemInv, Orderly, ThreadHolds, OrderHolds;
    if WasClaimed(trace + events, id) {
      var e :| e in trace + events && e.Claimed? && e.id == id;
      assert e in trace;
      assert EventHolds(rules, m, threads, e);
      PreparedIsOld(rules, m, op, id);
    }
  }

  lemma BackedByCall(
    rules: TextRules, m: MemStore, threads: map<nat, Thread>, trace: seq<Event>, t: nat, op: Op, events: seq<Event>, id: Id)
    requires Inv(rules, m, threads, trace) && OpOk(op) && id in MemApply(rules, m, op).0.byId
    requires op.RecordSuccess? ==> Evidence(trace, op.id, Bought(op.reference))
    requires op.RecordSafeFailure? ==> Evidence(trace, op.id, RefusedSafely(op.code))
    requires forall e :: e in events && e.Claimed? && e.id == id ==> MemApply(rules, m, op).0.byId[id].intent.state != Prepared
    ensures OrderHolds(MemApply(rules, m, op).0, trace + events, id)
  {
    hide Inv, MemApply, OpOk, Evidence, WasClaimed;
    if VerdictOf(MemApply(rules, m, op).0.byId[id]).Some? {
      VerdictIsBacked(rules, m, threads, trace, op, events, id);
    }
    if MemApply(rules, m, op).0.byId[id].intent.state == Prepared {
      PreparedIsUnclaimed(rules, m, threads, trace, op, events, id);
    }
  }

  /** The store after one step of a thread is a later one, and still satisfies its own invariant. */
  lemma StoreGrows(
    rules: TextRules, m: MemStore, threads: map<nat, Thread>, trace: seq<Event>, step: Step)
    requires Inv(rules, m, threads, trace) && !step.Spawn? && step.thread in threads
    ensures var b := Move(rules, InMemory(m), threads[step.thread], step).0;
      b.InMemory? && MemInv(b.orders) && Grows(m, b.orders)
  {
    hide Inv, ThreadHolds, MemApply, Stored, Admissible;
    var t := step.thread;
    var th := threads[t];
    Held(rules, m, threads, trace, t);
    assert MemInv(m) by { InvHasMemInv(rules, m, threads, trace); }
    if step.Store? && PendingOp(th.pc).Some? {
      hide MemInv;
      PendingOpIsOk(rules, m, trace, t, th);
      MemKeepsInv(rules, m, PendingOp(th.pc).value);
      CallGrows(rules, m, PendingOp(th.pc).value);
    } else {
      hide MemInv;
    }
  }

  lemma InvHasMemInv(rules: TextRules, m: MemStore, threads: map<nat, Thread>, trace: seq<Event>)
    requires Inv(rules, m, threads, trace)
    ensures MemInv(m) && Orderly(trace)
  {
  }

  /** No step of one thread closes another thread's delivery attempt. */
  lemma OthersStayOpen(
    rules: TextRules, m: MemStore, threads: map<nat, Thread>, trace: seq<Event>, step: Step, t: nat, d: DeliveryTerms)
    requires Inv(rules, m, threads, trace) && !step.Spawn? && step.thread in threads && t != step.thread
    requires Open(m, d) && Created(t, d) in trace
    ensures var b := Move(rules, InMemory(m), threads[step.thread], step).0;
      b.InMemory? && Open(b.orders, d)
  {
    hide Inv, MemInv, MemApply, Stored, Admissible;
    var th := threads[step.thread];
    Held(rules, m, threads, trace, step.thread);
    InvHasMemInv(rules, m, threads, trace);
    if step.Store? && PendingOp(th.pc).Some? {
      PendingOpIsOk(rules, m, trace, step.thread, th);
      if th.pc.Finishing? && th.pc.terms.id == d.id {
        SameAttempt(m, d, th.pc.terms);
        OneCreator(trace, step.thread, t, d);
      } else {
        OpenKept(rules, m, PendingOp(th.pc).value, d);
      }
    }
  }

  lemma SameAttempt(m: MemStore, d: DeliveryTerms, d': DeliveryTerms)
    requires MemInv(m) && Open(m, d) && Open(m, d') && d.id == d'.id
    ensures d == d'
  {
    assert Stored(d.orderId, m.byId[d.orderId]) && Stored(d'.orderId, m.byId[d'.orderId]);
    UniqueDelivery(m, d.id, d.orderId, d.number - 1, d'.orderId, d'.number - 1);
  }

  /** Every step of every thread keeps the invariant. */
  lemma ThreadStepKeepsInv(
    rules: TextRules, m: MemStore, threads: map<nat, Thread>, trace: seq<Event>, step: Step)
    requires Inv(rules, m, threads, trace) && !step.Spawn? && step.thread in threads
    ensures var th := threads[step.thread];
      var (b, pc, events) := Move(rules, InMemory(m), th, step);
      b.InMemory? && Inv(rules, b.orders, threads[step.thread := th.(pc := pc)], trace + events)
  {
    hide Move, MemInv, Orderly, ThreadHolds, EventHolds, OrderHolds, Grows, Adds;
    var actor := step.thread;
    var th := threads[actor];
    var (b, pc, events) := Move(rules, InMemory(m), th, step);
    StoreGrows(rules, m, threads, trace, step);
    ActorHolds(rules, m, threads, trace, step);
    AddsKeepsOrderly(trace, events, actor);
    var m', threads' := b.orders, threads[actor := th.(pc := pc)];
    forall e | e in trace + events ensures EventHolds(rules, m', threads', e) {
      if e in trace {
        OldEventHolds(rules, m, m', threads, threads', e);
      } else {
        NewEventHolds(rules, m, threads, trace, step, e);
      }
    }
    forall t | t in threads' ensures ThreadHolds(rules, m', trace + events, t, threads'[t]) {
      if t != actor {
        forall d | Open(m, d) && Created(t, d) in trace ensures Open(m', d) {
          OthersStayOpen(rules, m, threads, trace, step, t, d);
        }
        OtherThreadHolds(rules, m, m', trace, events, actor, t, threads[t]);
      }
    }
    forall id | id in m'.byId ensures OrderHolds(m', trace + events, id) {
      EveryOrderHolds(rules, m, threads, trace, step, id);
    }
  }

  lemma SpawnKeepsInv(
    rules: TextRules, m: MemStore, threads: map<nat, Thread>, trace: seq<Event>, t: nat, call: Call)
    requires Inv(rules, m, threads, trace) && t !in threads
    ensures Inv(rules, m, threads[t := Thread(call, FirstPc(rules, call))], trace)
  {
    var threads' := threads[t := Thread(call, FirstPc(rules, call))];
    hide MemInv, Orderly, OrderHolds;
    forall e | e in trace ensures EventHolds(rules, m, threads', e) {
      assert EventHolds(rules, m, threads, e);
    }
  }

  ghost predicate Safe(rules: TextRules, w: World) {
    w.store.InMemory? && Inv(rules, w.store.orders, w.threads, w.trace)
  }

  /** Over every schedule, the invariant holds. */
  lemma {:induction false} EveryRunIsSafe(rules: TextRules, schedule: seq<Step>)
    ensures Safe(rules, Run(rules, EMPTY_MEMORY, schedule))
  {
    if schedule == [] {
      assert Orderly([]);
    } else {
      var front, step := schedule[..|schedule| - 1], schedule[|schedule| - 1];
      EveryRunIsSafe(rules, front);
      StepIsSafe(rules, Run(rules, EMPTY_MEMORY, front), step);
    }
  }

  lemma StepIsSafe(rules: TextRules, w: World, step: Step)
    requires Safe(rules, w)
    ensures Safe(rules, Do(rules, w, step))
  {
    hide Inv, Move;
    if step.Spawn? && step.thread !in w.threads {
      SpawnKeepsInv(rules, w.store.orders, w.threads, w.trace, step.thread, step.call);
    } else if !step.Spawn? && step.thread in w.threads {
      ThreadStepKeepsInv(rules, w.store.orders, w.threads, w.trace, step);
    }
  }
}
