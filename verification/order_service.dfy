/** `orders/service.py` as programs whose steps interleave: each repository call is one atomic step,
    each call to the supplier or the sink is one step out and one step back, and a thread may stop
    at any point. */
module OrderService {
  import opened Common
  import opened OrderModels
  import opened OrderMemory
  import opened OrderTables
  import opened OrderPlanning

  datatype Call = Place(placement: Placement) | Recover(id: Id) | Deliver(id: Id)

  /** What a terminal answer of the supplier says. */
  datatype Verdict = Bought(reference: Text) | RefusedSafely(code: SafeFailureCode)

  datatype Port = PurchasePort | ReconcilePort

  /** Where a thread stands: the next repository call, or the port it is about to call or waits for.
      `Done(Some(a))` has returned a snapshot of `a`; `Done(None)` has raised or crashed. */
  datatype Pc =
    | Preparing(candidate: Aggregate)
    | Claiming(id: Id)
    | Purchasing(claimed: Aggregate)
    | AwaitingPurchase(id: Id)
    | Recording(id: Id, verdict: Option<Verdict>, raises: bool)
    | Looking(id: Id)
    | Marking(id: Id)
    | Beginning(id: Id)
    | Inquiring(started: Aggregate)
    | AwaitingInquiry(started: Aggregate)
    | Creating(id: Id)
    | Sending(terms: DeliveryTerms)
    | AwaitingSink(terms: DeliveryTerms)
    | Finishing(terms: DeliveryTerms, succeeded: bool, failure: Option<Text>, raises: bool)
    | Rereading(id: Id)
    | Done(result: Option<Aggregate>)

  datatype Thread = Thread(call: Call, pc: Pc)

  datatype Event =
    | Claimed(thread: nat, id: Id)
    | Called(thread: nat, id: Id, port: Port, key: Key, payload: Payload)
    | Answered(thread: nat, id: Id, port: Port, verdict: Option<Verdict>)
    | Created(thread: nat, terms: DeliveryTerms)
    | Sent(thread: nat, terms: DeliveryTerms)

  datatype Backend = InMemory(orders: MemStore) | Postgres(tables: Tables)

  datatype World = World(store: Backend, threads: map<nat, Thread>, trace: seq<Event>)

  datatype PortAnswer = Conclusive(verdict: Verdict) | Inconclusive | PortRaised | PortCancelled

  datatype SinkAnswer = Received | Rejected | Malformed | SinkRaised | SinkCancelled

  /** One step of a schedule. `StopThread` is a crash, a cancellation or an exception (an unsafe
      runtime mode, a rejected capability) at a point where the code does not handle it. */
  datatype Step =
    | Spawn(thread: nat, call: Call)
    | Store(thread: nat)
    | CallPort(thread: nat, supplier: Option<Text>, reconciliation: Option<bool>)
    | PortReturns(thread: nat, answer: PortAnswer)
    | CallSink(thread: nat)
    | SinkReturns(thread: nat, sink: SinkAnswer)
    | StopThread(thread: nat)

  ghost function Apply(rules: TextRules, b: Backend, op: Op): (Backend, Reply) {
    match b
    case InMemory(m) => (InMemory(MemApply(rules, m, op).0), MemApply(rules, m, op).1)
    case Postgres(t) => (Postgres(TabApply(rules, t, op).0), TabApply(rules, t, op).1)
  }

  function FirstPc(rules: TextRules, call: Call): Pc {
    match call
    case Place(p) => (match PlanOrder(rules, p) case Ok(c) => Preparing(c) case Err(_) => Done(None))
    case Recover(id) => Looking(id)
    case Deliver(id) => Creating(id)
  }

  /** The repository call a thread is about to make. */
  function PendingOp(pc: Pc): Option<Op> {
    match pc
    case Preparing(c) => Some(Prepare(c))
    case Claiming(id) => Some(ClaimPrepared(id))
    case Recording(id, verdict, _) =>
      Some(match verdict
           case None => RecordUnknown(id)
           case Some(Bought(reference)) => RecordSuccess(id, reference)
           case Some(RefusedSafely(code)) => RecordSafeFailure(id, code))
    case Looking(id) => Some(Get(id))
    case Marking(id) => Some(RecordUnknown(id))
    case Beginning(id) => Some(BeginReconciliation(id))
    case Creating(id) => Some(CreateDelivery(id))
    case Finishing(d, succeeded, failure, _) => Some(FinishDelivery(d.id, succeeded, failure))
    case Rereading(id) => Some(Get(id))
    case _ => None
  }

  /** `recover` once the order is no longer DISPATCHING. */
  function AfterLooking(id: Id, a: Aggregate): Pc {
    if Terminal(a.intent.state) then Done(Some(a))
    else if a.intent.state !in {Unknown, Reconciling} then Done(None)
    else Beginning(id)
  }

  /** Where a thread goes with the repository's reply; every refusal raises. */
  function AfterReply(pc: Pc, reply: Reply): Pc {
    match pc
    case Preparing(_) =>
      if !reply.PrepareReply? then Done(None)
      else if reply.aggregate.intent.state == Prepared then Claiming(reply.aggregate.intent.terms.id)
      else Done(Some(reply.aggregate))
    case Claiming(id) =>
      if reply.AggregateReply? then Purchasing(reply.aggregate)
      else if reply.NotClaimed? then Rereading(id)
      else Done(None)
    case Recording(_, _, raises) =>
      if reply.AggregateReply? && !raises then Done(Some(reply.aggregate)) else Done(None)
    case Looking(id) =>
      if !reply.AggregateReply? then Done(None)
      else if reply.aggregate.intent.state == Dispatching then Marking(id)
      else AfterLooking(id, reply.aggregate)
    case Marking(id) => if reply.AggregateReply? then AfterLooking(id, reply.aggregate) else Done(None)
    case Beginning(_) =>
      if !reply.ReconcileReply? then Done(None)
      else if !reply.shouldReconcile then Done(Some(reply.aggregate))
      else Inquiring(reply.aggregate)
    case Creating(_) => if reply.DeliveryReply? then Sending(reply.delivery.terms) else Done(None)
    case Finishing(d, _, _, raises) =>
      if reply.DeliveryReply? && !raises then Rereading(d.orderId) else Done(None)
    case Rereading(_) => if reply.AggregateReply? then Done(Some(reply.aggregate)) else Done(None)
    case _ => Done(None)
  }

  /** What a repository call adds to the trace: a won claim, or a new delivery attempt. */
  function StoreEvents(thread: nat, pc: Pc, reply: Reply): seq<Event> {
    if pc.Claiming? && reply.AggregateReply? then [Claimed(thread, pc.id)]
    else if pc.Creating? && reply.DeliveryReply? then [Created(thread, reply.delivery.terms)]
    else []
  }

  /** `_require_matching_persisted_supplier`. */
  predicate SupplierMatches(a: Aggregate, supplier: Option<Text>) {
    supplier == Some(a.attempt.terms.supplier) && supplier == Some(a.attempt.terms.payload.supplier)
  }

  function PortCalled(thread: nat, port: Port, a: Aggregate): Event {
    Called(thread, a.intent.terms.id, port, a.attempt.terms.requestKey, a.attempt.terms.payload)
  }

  function AfterCall(thread: nat, pc: Pc, supplier: Option<Text>, reconciliation: Option<bool>): (Pc, seq<Event>)
    requires pc.Purchasing? || pc.Inquiring?
  {
    match pc
    case Purchasing(a) =>
      if SupplierMatches(a, supplier) then (AwaitingPurchase(a.intent.terms.id), [PortCalled(thread, PurchasePort, a)])
      else (Done(None), [])
    case Inquiring(a) =>
      if reconciliation.None? then (Done(None), [])
      else if !reconciliation.value then (Done(Some(a)), [])
      else if !SupplierMatches(a, supplier) then (Done(None), [])
      else (AwaitingInquiry(a), [PortCalled(thread, ReconcilePort, a)])
    case _ => (pc, [])
  }

  function VerdictIn(answer: PortAnswer): Option<Verdict> {
    if answer.Conclusive? then Some(answer.verdict) else None
  }

  function AfterAnswer(thread: nat, pc: Pc, answer: PortAnswer): (Pc, seq<Event>)
    requires pc.AwaitingPurchase? || pc.AwaitingInquiry?
  {
    match pc
    case AwaitingPurchase(id) =>
      (Recording(id, VerdictIn(answer), answer.PortCancelled?), [Answered(thread, id, PurchasePort, VerdictIn(answer))])
    case AwaitingInquiry(a) =>
      var id := a.intent.terms.id;
      (if answer.Conclusive? then Recording(id, VerdictIn(answer), false)
       else if answer.PortCancelled? then Done(None)
       else Done(Some(a)),
       [Answered(thread, id, ReconcilePort, VerdictIn(answer))])
    case _ => (pc, [])
  }

  function AfterSink(rules: TextRules, terms: DeliveryTerms, answer: SinkAnswer): Pc {
    match answer
    case Received => Finishing(terms, true, None, false)
    case Rejected => Finishing(terms, false, Some(rules.deliveryFailed), false)
    case Malformed => Finishing(terms, false, Some(rules.deliverySinkError), false)
    case SinkRaised => Finishing(terms, false, Some(rules.deliverySinkError), false)
    case SinkCancelled => Finishing(terms, false, Some(rules.deliveryCancelled), true)
  }

  /** The next position of one thread, with its effect on the store and the trace. A step that the
      thread cannot take changes nothing. */
  ghost function Move(rules: TextRules, b: Backend, th: Thread, step: Step): (Backend, Pc, seq<Event>) {
    var pc := th.pc;
    match step
    case Spawn(_, _) => (b, pc, [])
    case Store(t) =>
      if PendingOp(pc).None? then (b, pc, [])
      else
        var (b', reply) := Apply(rules, b, PendingOp(pc).value);
        (b', AfterReply(pc, reply), StoreEvents(t, pc, reply))
    case CallPort(t, supplier, reconciliation) =>
      if !pc.Purchasing? && !pc.Inquiring? then (b, pc, [])
      else var (pc', events) := AfterCall(t, pc, supplier, reconciliation); (b, pc', events)
    case PortReturns(t, answer) =>
      if !pc.AwaitingPurchase? && !pc.AwaitingInquiry? then (b, pc, [])
      else var (pc', events) := AfterAnswer(t, pc, answer); (b, pc', events)
    case CallSink(t) =>
      if !pc.Sending? then (b, pc, []) else (b, AwaitingSink(pc.terms), [Sent(t, pc.terms)])
    case SinkReturns(_, answer) =>
      if !pc.AwaitingSink? then (b, pc, []) else (b, AfterSink(rules, pc.terms, answer), [])
    case StopThread(_) => (b, Done(None), [])
  }

  ghost function Do(rules: TextRules, w: World, step: Step): World {
    if step.Spawn? then
      if step.thread in w.threads then w
      else w.(threads := w.threads[step.thread := Thread(step.call, FirstPc(rules, step.call))])
    else if step.thread !in w.threads then w
    else
      var th := w.threads[step.thread];
      var (b, pc, events) := Move(rules, w.store, th, step);
      World(b, w.threads[step.thread := th.(pc := pc)], w.trace + events)
  }

  /** The world after a schedule, from an empty store and no threads. */
  ghost function Run(rules: TextRules, start: Backend, schedule: seq<Step>): World {
    if schedule == [] then World(start, map[], [])
    else Do(rules, Run(rules, start, schedule[..|schedule| - 1]), schedule[|schedule| - 1])
  }

  const EMPTY_MEMORY := InMemory(EMPTY_STORE)
  const EMPTY_POSTGRES := Postgres(EMPTY_TABLES)
}
