/** What becomes of every answer: where a reply of the supplier or the sink is stored, what the caller
    gets, and how whole calls run when nothing comes between their steps. Everything is said of what
    `get` finds and of the trace, over either repository. */
module OrderOutcomes {
  import opened Common
  import opened OrderModels
  import opened OrderMemory
  import opened OrderTables
  import opened OrderPlanning
  import opened OrderService
  import opened OrderSafety
  import opened OrderGuarantees

  ghost predicate Reachable(rules: TextRules, w: World) {
    exists start, schedule :: Fresh(start) && w == Run(rules, start, schedule)
  }

  /** The world after more steps. */
  ghost function Steps(rules: TextRules, w: World, steps: seq<Step>): World {
    if steps == [] then w else Do(rules, Steps(rules, w, steps[..|steps| - 1]), steps[|steps| - 1])
  }

  predicate NoneOf(steps: seq<Step>, t: nat) { forall i :: 0 <= i < |steps| ==> steps[i].thread != t }

  // ---------------------------------------------------------------------------------------------
  // A reachable world and its twin over the map

  ghost predicate Mirrors(rules: TextRules, w: World, m: World) {
    Safe(rules, m) && (w == m || Related(rules, m, w))
  }

  lemma Twin(rules: TextRules, w: World) returns (m: World)
    requires Reachable(rules, w)
    ensures Mirrors(rules, w, m)
  {
    var start, schedule :| Fresh(start) && w == Run(rules, start, schedule);
    hide Run, Safe, Related;
    m := Run(rules, EMPTY_MEMORY, schedule);
    EveryRunIsSafe(rules, schedule);
    TablesRunLikeMemory(rules, schedule);
  }

  lemma MirrorsStep(rules: TextRules, w: World, m: World, step: Step)
    requires Mirrors(rules, w, m)
    ensures Mirrors(rules, Do(rules, w, step), Do(rules, m, step))
  {
    hide Safe, Related, Do;
    StepIsSafe(rules, m, step);
    if w != m {
      StepsAlike(rules, m, w, step);
    }
  }

  lemma {:induction false} MirrorsSteps(rules: TextRules, w: World, m: World, steps: seq<Step>)
    requires Mirrors(rules, w, m)
    ensures Mirrors(rules, Steps(rules, w, steps), Steps(rules, m, steps))
  {
    hide Mirrors, Do;
    if steps != [] {
      MirrorsSteps(rules, w, m, steps[..|steps| - 1]);
      MirrorsStep(rules, Steps(rules, w, steps[..|steps| - 1]), Steps(rules, m, steps[..|steps| - 1]), steps[|steps| - 1]);
    }
  }

  /** What is said of one is said of the other. */
  lemma MirrorsShow(rules: TextRules, w: World, m: World)
    requires Mirrors(rules, w, m)
    ensures m.store.InMemory? && MemInv(m.store.orders)
    ensures w.threads == m.threads && w.trace == m.trace
    ensures forall id :: Lookup(rules, w.store, id) == if id in m.store.orders.byId then Some(m.store.orders.byId[id]) else None
  {
    hide MemInv, Load, Linked, Stored, Inv;
    InvHasMemInv(rules, m.store.orders, m.threads, m.trace);
    if w != m {
      forall id ensures Lookup(rules, w.store, id) == Lookup(rules, m.store, id) {
        LoadAgrees(rules, w.store.tables, m.store.orders, id);
      }
    }
  }

  /** Steps of other threads do not move this one. */
  lemma {:induction false} OthersLeaveThread(rules: TextRules, w: World, steps: seq<Step>, t: nat)
    requires NoneOf(steps, t) && t in w.threads
    ensures t in Steps(rules, w, steps).threads && Steps(rules, w, steps).threads[t] == w.threads[t]
  {
    hide Move, FirstPc;
    if steps != [] {
      OthersLeaveThread(rules, w, steps[..|steps| - 1], t);
    }
  }

  // ---------------------------------------------------------------------------------------------
  // The supplier's answers

  /** The order afterwards: the same in everything but its purchase, which is now this. */
  predicate Becomes(
    a: Aggregate, b: Aggregate, state: PurchaseState, reference: Option<Text>, failure: Option<SafeFailureCode>)
  {
    && b.intent.terms == a.intent.terms && b.attempt.terms == a.attempt.terms && b.deliveries == a.deliveries
    && b.intent.state == state && b.attempt.status == state
    && b.attempt.reference == reference && b.attempt.failure == failure
  }

  /** A verdict reaches the store: from DISPATCHING or RECONCILING it is stored with its reference or
      code, and returned; an order that already shows it is returned as it is; anything else raises
      and changes nothing. */
  predicate Settles(rules: TextRules, verdict: Verdict, a: Aggregate, b: Aggregate, pc: Pc) {
    var moving := a.intent.state in {Dispatching, Reconciling};
    match verdict
    case Bought(reference) =>
      if reference in rules.safe128 && moving then Becomes(a, b, Succeeded, Some(reference), None) && pc == Done(Some(b))
      else
        && b == a
        && pc == if reference in rules.safe128 && a.intent.state == Succeeded && a.attempt.reference == Some(reference)
                 then Done(Some(a)) else Done(None)
    case RefusedSafely(code) =>
      if moving then Becomes(a, b, FailedSafe, None, Some(code)) && pc == Done(Some(b))
      else b == a && pc == if a.intent.state == FailedSafe && a.attempt.failure == Some(code) then Done(Some(a)) else Done(None)
  }

  /** No verdict: the order is UNKNOWN if it was DISPATCHING, and a terminal order refuses it. */
  predicate Unsettled(a: Aggregate, b: Aggregate, raises: bool, pc: Pc) {
    && (if a.intent.state == Dispatching then Becomes(a, b, Unknown, None, None) else b == a)
    && pc == if a.intent.state in {Dispatching, Unknown, Reconciling} && !raises then Done(Some(b)) else Done(None)
  }

  /** What a `purchase` answer makes of the order and what its caller gets. */
  predicate PurchaseEnds(rules: TextRules, answer: PortAnswer, a: Aggregate, b: Aggregate, pc: Pc) {
    match answer
    case Conclusive(verdict) => Settles(rules, verdict, a, b, pc)
    case Inconclusive => Unsettled(a, b, false, pc)
    case PortRaised => Unsettled(a, b, false, pc)
    case PortCancelled => Unsettled(a, b, true, pc)
  }

  lemma SettlingStores(rules: TextRules, m: World, t: nat)
    requires m.store.InMemory? && t in m.threads && m.threads[t].pc.Recording?
    requires m.threads[t].pc.id in m.store.orders.byId
    ensures var Recording(id, verdict, raises) := m.threads[t].pc;
      var m' := Do(rules, m, Store(t));
      && m'.store.InMemory? && t in m'.threads && m'.trace == m.trace
      && m'.store.orders.byId.Keys == m.store.orders.byId.Keys
      && (forall other :: other in m.store.orders.byId && other != id ==> m'.store.orders.byId[other] == m.store.orders.byId[other])
      && (verdict.Some? && !raises ==>
            Settles(rules, verdict.value, m.store.orders.byId[id], m'.store.orders.byId[id], m'.threads[t].pc))
      && (verdict.None? ==> Unsettled(m.store.orders.byId[id], m'.store.orders.byId[id], raises, m'.threads[t].pc))
  {
  }

  /** The order a thread waits for the supplier about is stored, and has left PREPARED. */
  lemma AwaitedIsStored(rules: TextRules, m: World, t: nat)
    requires Safe(rules, m) && t in m.threads
    ensures var pc := m.threads[t].pc; pc.AwaitingPurchase? ==>
      pc.id in m.store.orders.byId && m.store.orders.byId[pc.id].intent.state != Prepared
    ensures var pc := m.threads[t].pc; pc.AwaitingInquiry? ==>
      pc.started.intent.terms.id in m.store.orders.byId
      && m.store.orders.byId[pc.started.intent.terms.id].intent.state != Prepared
  {
    hide Inv, Asked, Faithful;
    Held(rules, m.store.orders, m.threads, m.trace, t);
    forall e | e in m.trace && e.Called? ensures e.id in m.store.orders.byId && m.store.orders.byId[e.id].intent.state != Prepared {
      CalledHasLeft(rules, m.store.orders, m.threads, m.trace, e);
    }
  }

  lemma {:induction false} StoredStays(rules: TextRules, m: World, steps: seq<Step>, id: Id)
    requires Safe(rules, m) && id in m.store.orders.byId
    ensures var m' := Steps(rules, m, steps);
      Safe(rules, m') && id in m'.store.orders.byId && Later(m.store.orders.byId[id], m'.store.orders.byId[id])
  {
    hide Inv, Do, Later;
    LaterIsReflexive(m.store.orders.byId[id]);
    if steps != [] {
      var front, step := steps[..|steps| - 1], steps[|steps| - 1];
      StoredStays(rules, m, front, id);
      var w := Steps(rules, m, front);
      StepIsSafe(rules, w, step);
      StepGrows(rules, w, step, id);
      LaterIsTransitive(m.store.orders.byId[id], w.store.orders.byId[id], Do(rules, w, step).store.orders.byId[id]);
    }
  }

  /** Where an answer puts its thread. */
  lemma AnswerMoves(rules: TextRules, m: World, t: nat, answer: PortAnswer)
    requires t in m.threads && (m.threads[t].pc.AwaitingPurchase? || m.threads[t].pc.AwaitingInquiry?)
    ensures var m', pc := Do(rules, m, PortReturns(t, answer)), m.threads[t].pc;
      && m'.store == m.store && t in m'.threads
      && (pc.AwaitingPurchase? ==>
            m'.threads[t].pc == Recording(pc.id, if answer.Conclusive? then Some(answer.verdict) else None, answer.PortCancelled?))
      && (pc.AwaitingInquiry? && answer.Conclusive? ==>
            m'.threads[t].pc == Recording(pc.started.intent.terms.id, Some(answer.verdict), false))
      && (pc.AwaitingInquiry? && !answer.Conclusive? ==>
            m'.threads[t].pc == if answer.PortCancelled? then Done(None) else Done(Some(pc.started)))
  {
  }

  /** A thread that records, whatever others do before its next repository call. */
  lemma RecordingReaches(rules: TextRules, m: World, others: seq<Step>, t: nat)
    requires Safe(rules, m) && NoneOf(others, t) && t in m.threads && m.threads[t].pc.Recording?
    requires m.threads[t].pc.id in m.store.orders.byId
    ensures var Recording(id, verdict, raises) := m.threads[t].pc;
      var before := Steps(rules, m, others);
      var after := Do(rules, before, Store(t));
      && before.store.InMemory? && id in before.store.orders.byId
      && Later(m.store.orders.byId[id], before.store.orders.byId[id])
      && after.store.InMemory? && id in after.store.orders.byId && t in after.threads
      && (verdict.Some? && !raises ==>
            Settles(rules, verdict.value, before.store.orders.byId[id], after.store.orders.byId[id], after.threads[t].pc))
      && (verdict.None? ==> Unsettled(before.store.orders.byId[id], after.store.orders.byId[id], raises, after.threads[t].pc))
  {
    hide Inv, Do, Later, Settles, Unsettled;
    OthersLeaveThread(rules, m, others, t);
    StoredStays(rules, m, others, m.threads[t].pc.id);
    SettlingStores(rules, Steps(rules, m, others), t);
  }

  /** Every answer to a purchase reaches the store with the caller's next repository call, whatever
      other calls do in between. While the order is still DISPATCHING a purchase makes it SUCCEEDED with
      that reference, a safe refusal FAILED_SAFE with that code, and anything else UNKNOWN; the
      caller gets that order, unless the call was cancelled. */
  lemma PurchaseAnswerIsStored(
    rules: TextRules, w: World, t: nat, answer: PortAnswer, others: seq<Step>)
    requires Reachable(rules, w) && t in w.threads && w.threads[t].pc.AwaitingPurchase? && NoneOf(others, t)
    ensures var id := w.threads[t].pc.id;
      var before := Steps(rules, Do(rules, w, PortReturns(t, answer)), others);
      var after := Do(rules, before, Store(t));
      var found, now := Lookup(rules, before.store, id), Lookup(rules, after.store, id);
      && found.Some? && found.value.intent.state != Prepared && now.Some? && t in after.threads
      && PurchaseEnds(rules, answer, found.value, now.value, after.threads[t].pc)
  {
    hide Mirrors, Do, Later, Settles, Unsettled, Safe, Lookup;
    var m := Twin(rules, w);
    MirrorsShow(rules, w, m);
    var w1, m1 := Do(rules, w, PortReturns(t, answer)), Do(rules, m, PortReturns(t, answer));
    MirrorsStep(rules, w, m, PortReturns(t, answer));
    MirrorsSteps(rules, w1, m1, others);
    MirrorsStep(rules, Steps(rules, w1, others), Steps(rules, m1, others), Store(t));
    MirrorsShow(rules, Steps(rules, w1, others), Steps(rules, m1, others));
    MirrorsShow(rules, Do(rules, Steps(rules, w1, others), Store(t)), Do(rules, Steps(rules, m1, others), Store(t)));
    MirrorsIsSafe(rules, w, m);
    MirrorsIsSafe(rules, w1, m1);
    AwaitedIsStored(rules, m, t);
    AnswerMoves(rules, m, t, answer);
    RecordingReaches(rules, m1, others, t);
    LaterHasLeft(m.store.orders.byId[w.threads[t].pc.id], Steps(rules, m1, others).store.orders.byId[w.threads[t].pc.id]);
  }

  lemma MirrorsIsSafe(rules: TextRules, w: World, m: World)
    requires Mirrors(rules, w, m)
    ensures Safe(rules, m)
  {
    hide Safe, Related;
  }

  lemma LaterHasLeft(a: Aggregate, b: Aggregate)
    requires Later(a, b) && a.intent.state != Prepared
    ensures b.intent.state != Prepared
  {
  }

  /** Every answer to a reconciliation: a conclusive one reaches the store with the next repository
      call as above, from RECONCILING in particular; any other returns the snapshot taken when the
      reconciliation was started and stores nothing, and a cancelled one raises. */
  lemma InquiryAnswerIsStored(
    rules: TextRules, w: World, t: nat, answer: PortAnswer, others: seq<Step>)
    requires Reachable(rules, w) && t in w.threads && w.threads[t].pc.AwaitingInquiry? && NoneOf(others, t)
    ensures var started := w.threads[t].pc.started;
      var answered := Do(rules, w, PortReturns(t, answer));
      && answered.store == w.store
      && match answer
         case Conclusive(verdict) =>
           var before := Steps(rules, answered, others);
           var after := Do(rules, before, Store(t));
           var found, now := Lookup(rules, before.store, started.intent.terms.id), Lookup(rules, after.store, started.intent.terms.id);
           && found.Some? && found.value.intent.state != Prepared && now.Some? && t in after.threads
           && Settles(rules, verdict, found.value, now.value, after.threads[t].pc)
         case PortCancelled => answered.threads[t].pc == Done(None)
         case _ => answered.threads[t].pc == Done(Some(started))
  {
    hide Mirrors, Do, Later, Settles, Unsettled, Safe, Lookup;
    AnswerMoves(rules, w, t, answer);
    var m := Twin(rules, w);
    MirrorsShow(rules, w, m);
    if answer.Conclusive? {
      var w1, m1 := Do(rules, w, PortReturns(t, answer)), Do(rules, m, PortReturns(t, answer));
      MirrorsStep(rules, w, m, PortReturns(t, answer));
      MirrorsSteps(rules, w1, m1, others);
      MirrorsStep(rules, Steps(rules, w1, others), Steps(rules, m1, others), Store(t));
      MirrorsShow(rules, Steps(rules, w1, others), Steps(rules, m1, others));
      MirrorsShow(rules, Do(rules, Steps(rules, w1, others), Store(t)), Do(rules, Steps(rules, m1, others), Store(t)));
      MirrorsIsSafe(rules, w, m);
      MirrorsIsSafe(rules, w1, m1);
      AwaitedIsStored(rules, m, t);
      AnswerMoves(rules, m, t, answer);
      RecordingReaches(rules, m1, others, t);
      var id := w.threads[t].pc.started.intent.terms.id;
      LaterHasLeft(m.store.orders.byId[id], Steps(rules, m1, others).store.orders.byId[id]);
    }
  }

  // ---------------------------------------------------------------------------------------------
  // The sink's answers

  /** The outcome a sink answer stands for. */
  function Outcome(rules: TextRules, answer: SinkAnswer, d: DeliveryTerms): DeliveryRecord {
    match answer
    case Received => DeliveryRecord(d, Delivered, None)
    case Rejected => DeliveryRecord(d, Undelivered, Some(rules.deliveryFailed))
    case Malformed => DeliveryRecord(d, Undelivered, Some(rules.deliverySinkError))
    case SinkRaised => DeliveryRecord(d, Undelivered, Some(rules.deliverySinkError))
    case SinkCancelled => DeliveryRecord(d, Undelivered, Some(rules.deliveryCancelled))
  }

  /** The attempt is stored under its number as this record. */
  predicate Holds(a: Aggregate, d: DeliveryRecord) {
    1 <= d.terms.number <= |a.deliveries| && a.deliveries[d.terms.number - 1] == d
  }

  /** The same order, with one attempt replaced. */
  predicate Replaces(a: Aggregate, b: Aggregate, d: DeliveryRecord) {
    && 1 <= d.terms.number <= |a.deliveries|
    && b.intent == a.intent && b.attempt == a.attempt
    && b.deliveries == a.deliveries[d.terms.number - 1 := d]
  }

  /** What a thread that waits for the sink, or has its answer, stands at. */
  ghost predicate AtSink(rules: TextRules, m: World, t: nat, answer: SinkAnswer, d: DeliveryTerms) {
    && t in m.threads && m.threads[t].pc.Finishing? && m.threads[t].pc.terms == d
    && DeliveryRecord(d, FinishedStatus(m.threads[t].pc.succeeded), FinishedFailure(m.threads[t].pc.succeeded, m.threads[t].pc.failure))
       == Outcome(rules, answer, d)
    && (m.threads[t].pc.raises <==> answer.SinkCancelled?)
  }

  lemma SinkAnswerMoves(rules: TextRules, m: World, t: nat, answer: SinkAnswer)
    requires t in m.threads && m.threads[t].pc.AwaitingSink?
    ensures AtSink(rules, Do(rules, m, SinkReturns(t, answer)), t, answer, m.threads[t].pc.terms)
  {
  }

  lemma FinishingHolds(rules: TextRules, m: World, t: nat, answer: SinkAnswer, d: DeliveryTerms)
    requires KnownTexts(rules) && Safe(rules, m) && AtSink(rules, m, t, answer, d)
    ensures MemInv(m.store.orders) && Open(m.store.orders, d)
    ensures FailureTextOk(rules, m.threads[t].pc.succeeded, m.threads[t].pc.failure)
  {
    hide Inv, MemInv, ThreadHolds, Open;
    InvHasMemInv(rules, m.store.orders, m.threads, m.trace);
    Held(rules, m.store.orders, m.threads, m.trace, t);
    FinishingIsOpen(rules, m.store.orders, m.trace, t, m.threads[t]);
  }

  lemma FinishingStores(rules: TextRules, m: World, t: nat, answer: SinkAnswer, d: DeliveryTerms)
    requires m.store.InMemory? && AtSink(rules, m, t, answer, d)
    requires MemInv(m.store.orders) && Open(m.store.orders, d)
    requires FailureTextOk(rules, m.threads[t].pc.succeeded, m.threads[t].pc.failure)
    ensures d.orderId in m.store.orders.byId && Holds(m.store.orders.byId[d.orderId], DeliveryRecord(d, Pending, None))
    ensures var m' := Do(rules, m, Store(t));
      && m'.store.InMemory? && d.orderId in m'.store.orders.byId && t in m'.threads
      && Replaces(m.store.orders.byId[d.orderId], m'.store.orders.byId[d.orderId], Outcome(rules, answer, d))
      && m'.threads[t].pc == if answer.SinkCancelled? then Done(None) else Rereading(d.orderId)
  {
    hide MemInv, MemFinish, Outcome;
    OpenIsFinished(rules, m.store.orders, d, m.threads[t].pc.succeeded, m.threads[t].pc.failure);
  }

  /** Every answer of the sink reaches the store with the caller's next repository call, whatever
      other calls do in between: the attempt is then DELIVERED if the sink received it, and otherwise
      UNDELIVERED with the text for what went wrong, and nothing else of the order has changed. A
      cancelled call raises; any other goes on to read the order back. */
  lemma SinkAnswerIsStored(rules: TextRules, w: World, t: nat, answer: SinkAnswer, others: seq<Step>)
    requires KnownTexts(rules) && Reachable(rules, w)
    requires t in w.threads && w.threads[t].pc.AwaitingSink? && NoneOf(others, t)
    ensures var d := w.threads[t].pc.terms;
      var before := Steps(rules, Do(rules, w, SinkReturns(t, answer)), others);
      var after := Do(rules, before, Store(t));
      var found, now := Lookup(rules, before.store, d.orderId), Lookup(rules, after.store, d.orderId);
      && found.Some? && Holds(found.value, DeliveryRecord(d, Pending, None))
      && now.Some? && Replaces(found.value, now.value, Outcome(rules, answer, d))
      && t in after.threads
      && after.threads[t].pc == if answer.SinkCancelled? then Done(None) else Rereading(d.orderId)
  {
    hide Mirrors, Do, Safe, Lookup, Holds, Replaces, AtSink, Outcome;
    var d := w.threads[t].pc.terms;
    var m := Twin(rules, w);
    MirrorsShow(rules, w, m);
    var w1, m1 := Do(rules, w, SinkReturns(t, answer)), Do(rules, m, SinkReturns(t, answer));
    MirrorsStep(rules, w, m, SinkReturns(t, answer));
    SinkAnswerMoves(rules, m, t, answer);
    FinishingReaches(rules, w1, m1, others, t, answer, d);
  }

  lemma FinishingReaches(
    rules: TextRules, w: World, m: World, others: seq<Step>, t: nat, answer: SinkAnswer, d: DeliveryTerms)
    requires KnownTexts(rules) && Mirrors(rules, w, m) && NoneOf(others, t) && AtSink(rules, m, t, answer, d)
    ensures var before := Steps(rules, w, others);
      var after := Do(rules, before, Store(t));
      var found, now := Lookup(rules, before.store, d.orderId), Lookup(rules, after.store, d.orderId);
      && found.Some? && Holds(found.value, DeliveryRecord(d, Pending, None))
      && now.Some? && Replaces(found.value, now.value, Outcome(rules, answer, d))
      && t in after.threads
      && after.threads[t].pc == if answer.SinkCancelled? then Done(None) else Rereading(d.orderId)
  {
    hide Mirrors, Do, Safe, Lookup, Holds, Replaces, Outcome;
    var w1, m1 := Steps(rules, w, others), Steps(rules, m, others);
    OthersLeaveThread(rules, m, others, t);
    MirrorsSteps(rules, w, m, others);
    MirrorsStep(rules, w1, m1, Store(t));
    MirrorsShow(rules, w1, m1);
    MirrorsShow(rules, Do(rules, w1, Store(t)), Do(rules, m1, Store(t)));
    MirrorsIsSafe(rules, w1, m1);
    FinishingHolds(rules, m1, t, answer, d);
    hide MemInv, AtSink, Open;
    FinishingStores(rules, m1, t, answer, d);
  }

  lemma ReadingShows(rules: TextRules, m: World, t: nat)
    requires m.store.InMemory? && t in m.threads && m.threads[t].pc.Rereading?
    ensures var m', id := Do(rules, m, Store(t)), m.threads[t].pc.id;
      && t in m'.threads
      && m'.threads[t].pc == Done(if id in m.store.orders.byId then Some(m.store.orders.byId[id]) else None)
  {
  }

  /** A read returns what is stored then. */
  lemma RereadReturnsTheOrder(rules: TextRules, w: World, t: nat, others: seq<Step>)
    requires Reachable(rules, w) && t in w.threads && w.threads[t].pc.Rereading? && NoneOf(others, t)
    ensures var before := Steps(rules, w, others);
      var after := Do(rules, before, Store(t));
      t in after.threads && after.threads[t].pc == Done(Lookup(rules, before.store, w.threads[t].pc.id))
  {
    hide Mirrors, Safe, Lookup, Do, MemInv;
    var m := Twin(rules, w);
    MirrorsShow(rules, w, m);
    var w1, m1 := Steps(rules, w, others), Steps(rules, m, others);
    MirrorsSteps(rules, w, m, others);
    OthersLeaveThread(rules, m, others, t);
    MirrorsShow(rules, w1, m1);
    MirrorsStep(rules, w1, m1, Store(t));
    MirrorsShow(rules, Do(rules, w1, Store(t)), Do(rules, m1, Store(t)));
    ReadingShows(rules, m1, t);
  }
}
