/** What the order service promises, over both repositories and every schedule. */
module OrderGuarantees {
  import opened Common
  import opened OrderModels
  import opened OrderMemory
  import opened OrderTables
  import opened OrderPlanning
  import opened OrderService
  import opened OrderSafety

  // ---------------------------------------------------------------------------------------------
  // Running over the tables is running over the map

  ghost predicate Related(rules: TextRules, w: World, v: World) {
    && w.store.InMemory? && v.store.Postgres?
    && Represents(rules, v.store.tables, w.store.orders)
    && w.threads == v.threads && w.trace == v.trace
  }

  lemma MovesAlike(rules: TextRules, m: MemStore, t: Tables, trace: seq<Event>, step: Step, th: Thread)
    requires Represents(rules, t, m) && ThreadHolds(rules, m, trace, step.thread, th)
    ensures var (b, pc, events) := Move(rules, InMemory(m), th, step);
      var (b', pc', events') := Move(rules, Postgres(t), th, step);
      && b.InMemory? && b'.Postgres? && Represents(rules, b'.tables, b.orders) && pc == pc' && events == events'
  {
    hide Represents, CallOk, MemApply, TabApply, ThreadHolds;
    if step.Store? && PendingOp(th.pc).Some? {
      PendingOpIsOk(rules, m, trace, step.thread, th);
      TablesRefineMemory(rules, t, m, PendingOp(th.pc).value);
    }
  }

  lemma StepsAlike(rules: TextRules, w: World, v: World, step: Step)
    requires Related(rules, w, v) && Safe(rules, w)
    ensures Related(rules, Do(rules, w, step), Do(rules, v, step))
  {
    hide Move, Represents, Inv, ThreadHolds, FirstPc;
    if !step.Spawn? && step.thread in w.threads {
      Held(rules, w.store.orders, w.threads, w.trace, step.thread);
      MovesAlike(rules, w.store.orders, v.store.tables, w.trace, step, w.threads[step.thread]);
    }
  }

  /** Every schedule does the same over the tables as over the map: the same positions, the same
      calls and answers in the same order, and tables that hold exactly the orders of the map. */
  lemma {:induction false} TablesRunLikeMemory(rules: TextRules, schedule: seq<Step>)
    ensures Related(rules, Run(rules, EMPTY_MEMORY, schedule), Run(rules, EMPTY_POSTGRES, schedule))
  {
    if schedule != [] {
      hide Related, Safe, Do;
      var front := schedule[..|schedule| - 1];
      TablesRunLikeMemory(rules, front);
      EveryRunIsSafe(rules, front);
      StepsAlike(rules, Run(rules, EMPTY_MEMORY, front), Run(rules, EMPTY_POSTGRES, front), schedule[|schedule| - 1]);
    }
  }

  /** What `get` finds. */
  function Lookup(rules: TextRules, b: Backend, id: Id): Option<Aggregate> {
    match b
    case InMemory(m) => if id in m.byId then Some(m.byId[id]) else None
    case Postgres(t) => (match Load(rules, t, id) case Ok(a) => Some(a) case Err(_) => None)
  }

  predicate Fresh(start: Backend) { start == EMPTY_MEMORY || start == EMPTY_POSTGRES }

  /** Everything the guarantees below speak of is the same over either repository. */
  lemma SameInMemory(rules: TextRules, start: Backend, schedule: seq<Step>)
    requires Fresh(start)
    ensures var w, m := Run(rules, start, schedule), Run(rules, EMPTY_MEMORY, schedule);
      && w.threads == m.threads && w.trace == m.trace && Safe(rules, m)
      && forall id :: Lookup(rules, w.store, id) == Lookup(rules, m.store, id)
  {
    EveryRunIsSafe(rules, schedule);
    hide Run, Safe, Load, Linked, Stored;
    TablesRunLikeMemory(rules, schedule);
    var m, t := Run(rules, EMPTY_MEMORY, schedule), Run(rules, EMPTY_POSTGRES, schedule);
    forall id ensures Lookup(rules, t.store, id) == Lookup(rules, m.store, id) {
      LoadAgrees(rules, t.store.tables, m.store.orders, id);
    }
  }

  // ---------------------------------------------------------------------------------------------
  // Purchases

  /** Each idempotency key has at most one order. */
  lemma OneOrderPerKey(rules: TextRules, start: Backend, schedule: seq<Step>, id: Id, id': Id)
    requires Fresh(start)
    requires var s := Run(rules, start, schedule).store;
      && Lookup(rules, s, id).Some? && Lookup(rules, s, id').Some?
      && Lookup(rules, s, id).value.intent.terms.key == Lookup(rules, s, id').value.intent.terms.key
    ensures id == id'
  {
    hide Run, Inv, Load;
    SameInMemory(rules, start, schedule);
    var m := Run(rules, EMPTY_MEMORY, schedule);
    InvHasMemInv(rules, m.store.orders, m.threads, m.trace);
    OrderIsStored(m.store.orders, id);
    OrderIsStored(m.store.orders, id');
  }

  predicate IsPurchase(e: Event, id: Id) { e.Called? && e.port == PurchasePort && e.id == id }

  lemma {:induction false} OnePurchase(trace: seq<Event>, i: nat, j: nat, id: Id)
    requires Orderly(trace) && i < |trace| && j < |trace| && IsPurchase(trace[i], id) && IsPurchase(trace[j], id)
    ensures i == j
  {
    var front, last := trace[..|trace| - 1], trace[|trace| - 1];
    if i < |front| && j < |front| {
      OnePurchase(front, i, j, id);
    } else if i != j {
      assert false;
    }
  }

  /** The supplier's `purchase` is called at most once per order. */
  lemma PurchasedAtMostOnce(rules: TextRules, start: Backend, schedule: seq<Step>, id: Id, i: nat, j: nat)
    requires Fresh(start)
    requires var trace := Run(rules, start, schedule).trace;
      i < |trace| && j < |trace| && IsPurchase(trace[i], id) && IsPurchase(trace[j], id)
    ensures i == j
  {
    hide Run, Inv, Orderly;
    SameInMemory(rules, start, schedule);
    var m := Run(rules, EMPTY_MEMORY, schedule);
    InvHasMemInv(rules, m.store.orders, m.threads, m.trace);
    OnePurchase(m.trace, i, j, id);
  }

  lemma {:induction false} JustifiedAt(trace: seq<Event>, i: nat)
    requires Orderly(trace) && i < |trace|
    ensures Justified(trace[..i], trace[i])
  {
    var front := trace[..|trace| - 1];
    if i < |front| {
      JustifiedAt(front, i);
      assert front[..i] == trace[..i];
    }
  }

  lemma EventIsTrue(rules: TextRules, w: World, i: nat)
    requires Safe(rules, w) && i < |w.trace|
    ensures EventHolds(rules, w.store.orders, w.threads, w.trace[i])
    ensures Justified(w.trace[..i], w.trace[i])
  {
    hide MemInv, EventHolds, Justified, ThreadHolds, OrderHolds;
    JustifiedAt(w.trace, i);
  }

  /** Every call to the supplier carries the stored request key and payload of an order that has
      left PREPARED. A purchase is called only by a `place_order` thread, after that same thread
      stored DISPATCHING, and for exactly what its caller authorised: product, quantity, a price
      the catalog offered, at most the caller's cap. A recovery only reconciles. */
  lemma CallsAreAuthorised(rules: TextRules, start: Backend, schedule: seq<Step>, i: nat)
    requires Fresh(start) && i < |Run(rules, start, schedule).trace|
    requires Run(rules, start, schedule).trace[i].Called?
    ensures var w := Run(rules, start, schedule);
      var Called(t, id, port, key, payload) := w.trace[i];
      && Lookup(rules, w.store, id).Some?
      && var a := Lookup(rules, w.store, id).value;
      && a.intent.state != Prepared
      && key == a.attempt.terms.requestKey == PurchaseKey(id)
      && payload == a.attempt.terms.payload
      && t in w.threads
      && (port == PurchasePort ==>
            && Claimed(t, id) in w.trace[..i]
            && w.threads[t].call.Place?
            && w.threads[t].call.placement.request.idempotencyKey == a.intent.terms.key
            && Authorised(w.threads[t].call.placement, payload))
      && (port == ReconcilePort ==> w.threads[t].call == Recover(id))
  {
    hide Run, Inv, Authorised, Load;
    SameInMemory(rules, start, schedule);
    var m := Run(rules, EMPTY_MEMORY, schedule);
    EventIsTrue(rules, m, i);
    InvHasMemInv(rules, m.store.orders, m.threads, m.trace);
    OrderIsStored(m.store.orders, m.trace[i].id);
  }

  // ---------------------------------------------------------------------------------------------
  // Evidence

  lemma TerminalHasVerdict(id: Id, a: Aggregate)
    requires Stored(id, a) && Terminal(a.intent.state)
    ensures VerdictOf(a).Some?
  {
  }

  lemma VerdictWasAnswered(rules: TextRules, m: World, id: Id) returns (verdict: Verdict, i: nat, j: nat)
    requires Safe(rules, m) && id in m.store.orders.byId && Terminal(m.store.orders.byId[id].intent.state)
    ensures VerdictOf(m.store.orders.byId[id]) == Some(verdict)
    ensures i < j < |m.trace|
    ensures m.trace[j].Answered? && m.trace[j].id == id && m.trace[j].verdict == Some(verdict)
    ensures m.trace[i].Called? && m.trace[i].id == id && m.trace[i].port == m.trace[j].port
    ensures m.trace[i].thread == m.trace[j].thread
  {
    hide Inv, MemInv, Stored, Orderly, VerdictOf, ThreadHolds, EventHolds;
    var a := m.store.orders.byId[id];
    InvHasMemInv(rules, m.store.orders, m.threads, m.trace);
    OrderIsStored(m.store.orders, id);
    TerminalHasVerdict(id, a);
    verdict := VerdictOf(a).value;
    Held(rules, m.store.orders, m.threads, m.trace, 0);
    assert OrderHolds(m.store.orders, m.trace, id);
    var e :| e in m.trace && e.Answered? && e.id == id && e.verdict == Some(verdict);
    j :| 0 <= j < |m.trace| && m.trace[j] == e;
    EventIsTrue(rules, m, j);
    var call :| call in m.trace[..j] && call.Called? && call.thread == e.thread && call.id == id && call.port == e.port;
    i :| 0 <= i < j && m.trace[i] == call;
  }

  /** A terminal order carries a verdict, and the supplier gave that very verdict about this order
      in answer to a call that had gone out before. */
  lemma TerminalIsEvidenced(rules: TextRules, start: Backend, schedule: seq<Step>, id: Id)
    returns (verdict: Verdict, i: nat, j: nat)
    requires Fresh(start)
    requires var found := Lookup(rules, Run(rules, start, schedule).store, id);
      found.Some? && Terminal(found.value.intent.state)
    ensures var w := Run(rules, start, schedule);
      && VerdictOf(Lookup(rules, w.store, id).value) == Some(verdict)
      && i < j < |w.trace|
      && w.trace[j].Answered? && w.trace[j].id == id && w.trace[j].verdict == Some(verdict)
      && w.trace[i].Called? && w.trace[i].id == id && w.trace[i].port == w.trace[j].port
      && w.trace[i].thread == w.trace[j].thread
  {
    hide Run, Safe, Load, VerdictOf;
    SameInMemory(rules, start, schedule);
    var m := Run(rules, EMPTY_MEMORY, schedule);
    assert m.store.InMemory? by { SafeIsInMemory(rules, m); }
    verdict, i, j := VerdictWasAnswered(rules, m, id);
  }

  lemma SafeIsInMemory(rules: TextRules, m: World)
    requires Safe(rules, m)
    ensures m.store.InMemory?
  {
  }

  lemma StepGrows(rules: TextRules, w: World, step: Step, id: Id)
    requires Safe(rules, w) && id in w.store.orders.byId
    ensures var w' := Do(rules, w, step);
      w'.store.InMemory? && id in w'.store.orders.byId && Later(w.store.orders.byId[id], w'.store.orders.byId[id])
  {
    hide Inv, Move;
    if !step.Spawn? && step.thread in w.threads {
      StoreGrows(rules, w.store.orders, w.threads, w.trace, step);
    }
  }

  lemma {:induction false} MemoryMovesForward(rules: TextRules, schedule: seq<Step>, more: seq<Step>, id: Id)
    requires var w := Run(rules, EMPTY_MEMORY, schedule); Safe(rules, w) && id in w.store.orders.byId
    ensures var w, w' := Run(rules, EMPTY_MEMORY, schedule), Run(rules, EMPTY_MEMORY, schedule + more);
      Safe(rules, w') && id in w'.store.orders.byId && Later(w.store.orders.byId[id], w'.store.orders.byId[id])
    decreases |more|
  {
    if more == [] {
      assert schedule + more == schedule;
    } else {
      var front, step := more[..|more| - 1], more[|more| - 1];
      assert (schedule + more)[..|schedule + more| - 1] == schedule + front;
      var w, w' := Run(rules, EMPTY_MEMORY, schedule), Run(rules, EMPTY_MEMORY, schedule + front);
      assert Run(rules, EMPTY_MEMORY, schedule + more) == Do(rules, w', step);
      hide Later, Do, Run, Inv;
      MemoryMovesForward(rules, schedule, front, id);
      StepIsSafe(rules, w', step);
      StepGrows(rules, w', step, id);
      LaterIsTransitive(w.store.orders.byId[id], w'.store.orders.byId[id], Do(rules, w', step).store.orders.byId[id]);
    }
  }

  /** Longer schedules only move orders forward: an order never disappears, its obligation and its
      delivery history stay, and once SUCCEEDED or FAILED_SAFE its purchase never changes again,
      whatever answers arrive late. */
  lemma OrdersOnlyMoveForward(rules: TextRules, start: Backend, schedule: seq<Step>, more: seq<Step>, id: Id)
    requires Fresh(start) && Lookup(rules, Run(rules, start, schedule).store, id).Some?
    ensures Lookup(rules, Run(rules, start, schedule + more).store, id).Some?
    ensures Later(Lookup(rules, Run(rules, start, schedule).store, id).value,
                  Lookup(rules, Run(rules, start, schedule + more).store, id).value)
  {
    hide Run, Later, Load, Inv;
    SameInMemory(rules, start, schedule);
    SameInMemory(rules, start, schedule + more);
    MemoryMovesForward(rules, schedule, more, id);
  }

  /** A returned snapshot shows an order as it was stored: its obligation is the stored one, and a
      terminal outcome that was reported is the outcome the store still holds. */
  lemma ReturnedSnapshotsAreFaithful(rules: TextRules, start: Backend, schedule: seq<Step>, t: nat)
    requires Fresh(start) && t in Run(rules, start, schedule).threads
    requires var pc := Run(rules, start, schedule).threads[t].pc; pc.Done? && pc.result.Some?
    ensures var w := Run(rules, start, schedule);
      var a := w.threads[t].pc.result.value;
      var found := Lookup(rules, w.store, a.intent.terms.id);
      found.Some? && Later(a, found.value)
  {
    hide Run, Inv, Later, Load;
    SameInMemory(rules, start, schedule);
    var m := Run(rules, EMPTY_MEMORY, schedule);
    Held(rules, m.store.orders, m.threads, m.trace, t);
  }

  // ---------------------------------------------------------------------------------------------
  // Delivery

  /** The delivery attempts of an order are numbered exactly 1..n with the identities and keys of
      their numbers, and only a SUCCEEDED order has any. */
  lemma DeliveriesAreNumbered(rules: TextRules, start: Backend, schedule: seq<Step>, id: Id)
    requires Fresh(start) && Lookup(rules, Run(rules, start, schedule).store, id).Some?
    ensures var a := Lookup(rules, Run(rules, start, schedule).store, id).value;
      && (a.deliveries != [] ==> a.intent.state == Succeeded)
      && forall i :: 0 <= i < |a.deliveries| ==>
        a.deliveries[i].terms == DeliveryTerms(DeliveryUuid(id, i + 1), id, i + 1, DeliveryKey(id, i + 1))
  {
    hide Run, Inv, Load;
    SameInMemory(rules, start, schedule);
    var m := Run(rules, EMPTY_MEMORY, schedule);
    InvHasMemInv(rules, m.store.orders, m.threads, m.trace);
    OrderIsStored(m.store.orders, id);
  }

  lemma {:induction false} OneSending(trace: seq<Event>, i: nat, j: nat)
    requires Orderly(trace) && i < |trace| && j < |trace| && trace[i].Sent? && trace[j].Sent? && trace[i].terms == trace[j].terms
    ensures i == j
  {
    var front, last := trace[..|trace| - 1], trace[|trace| - 1];
    if i < |front| && j < |front| {
      OneSending(front, i, j);
    } else if i != j {
      assert false;
    }
  }

  /** A delivery attempt is handed to the sink at most once, only after it was stored, by the
      thread that stored it. */
  lemma SentAtMostOnce(rules: TextRules, start: Backend, schedule: seq<Step>, i: nat, j: nat)
    requires Fresh(start)
    requires var trace := Run(rules, start, schedule).trace;
      i < |trace| && j < |trace| && trace[i].Sent? && trace[j].Sent? && trace[i].terms == trace[j].terms
    ensures i == j
    ensures var trace := Run(rules, start, schedule).trace; Created(trace[i].thread, trace[i].terms) in trace[..i]
  {
    hide Run, Inv;
    SameInMemory(rules, start, schedule);
    var m := Run(rules, EMPTY_MEMORY, schedule);
    InvHasMemInv(rules, m.store.orders, m.threads, m.trace);
    EventIsTrue(rules, m, i);
    hide Orderly;
    OneSending(m.trace, i, j);
  }

  /** The source's three failure texts are short, printable and trimmed. */
  predicate KnownTexts(rules: TextRules) {
    && rules.deliveryCancelled in rules.safe64
    && rules.deliveryFailed in rules.safe64
    && rules.deliverySinkError in rules.safe64
  }

  lemma OpenIsFinished(rules: TextRules, m: MemStore, d: DeliveryTerms, succeeded: bool, failure: Option<Text>)
    requires MemInv(m) && Open(m, d) && FailureTextOk(rules, succeeded, failure)
    ensures Present(m, d.id)
    ensures MemFinish(rules, m, d.id, succeeded, failure).1
            == DeliveryReply(DeliveryRecord(d, FinishedStatus(succeeded), FinishedFailure(succeeded, failure)))
    ensures var a := m.byId[d.orderId];
      MemFinish(rules, m, d.id, succeeded, failure).0 == Put(m, d.orderId, a.(deliveries := a.deliveries[d.number - 1 :=
        DeliveryRecord(d, FinishedStatus(succeeded), FinishedFailure(succeeded, failure))]))
  {
    OrderIsStored(m, d.orderId);
    assert At(m, d.id, d.orderId, d.number - 1);
    var place := Locate(m, d.id);
    UniqueDelivery(m, d.id, d.orderId, d.number - 1, place.0, place.1);
  }

  lemma FinishingIsOpen(rules: TextRules, m: MemStore, trace: seq<Event>, t: nat, th: Thread)
    requires KnownTexts(rules) && ThreadHolds(rules, m, trace, t, th) && th.pc.Finishing?
    ensures Open(m, th.pc.terms) && FailureTextOk(rules, th.pc.succeeded, th.pc.failure)
  {
  }

  lemma FinishIsAccepted(rules: TextRules, w: World, v: World, t: nat)
    requires KnownTexts(rules) && Safe(rules, w) && t in w.threads && w.threads[t].pc.Finishing?
    requires v == w || Related(rules, w, v)
    ensures Accepted(rules, v.store, w.threads[t].pc)
  {
    hide Inv, MemInv, Linked, ThreadHolds, MemFinish, TabFinish, Open;
    var Finishing(d, succeeded, failure, _) := w.threads[t].pc;
    InvHasMemInv(rules, w.store.orders, w.threads, w.trace);
    Held(rules, w.store.orders, w.threads, w.trace, t);
    FinishingIsOpen(rules, w.store.orders, w.trace, t, w.threads[t]);
    OpenIsFinished(rules, w.store.orders, d, succeeded, failure);
    if v != w {
      LinkIsKept(rules, v.store.tables, w.store.orders, FinishDelivery(d.id, succeeded, failure));
    }
  }

  /** The repository call this thread is about to make stores the outcome of its attempt. */
  ghost predicate Accepted(rules: TextRules, b: Backend, pc: Pc)
    requires pc.Finishing?
  {
    Apply(rules, b, FinishDelivery(pc.terms.id, pc.succeeded, pc.failure)).1
      == DeliveryReply(if pc.succeeded then DeliveryRecord(pc.terms, Delivered, None)
                       else DeliveryRecord(pc.terms, Undelivered, pc.failure))
  }

  /** Recording the outcome of a delivery is never refused: no racing call can have finished the
      attempt first, so every sink answer reaches the store. */
  lemma OutcomeIsRecorded(rules: TextRules, start: Backend, schedule: seq<Step>, t: nat)
    requires KnownTexts(rules) && Fresh(start)
    requires t in Run(rules, start, schedule).threads && Run(rules, start, schedule).threads[t].pc.Finishing?
    ensures Accepted(rules, Run(rules, start, schedule).store, Run(rules, start, schedule).threads[t].pc)
  {
    hide Run, Safe, Accepted, Related;
    SameInMemory(rules, start, schedule);
    TablesRunLikeMemory(rules, schedule);
    FinishIsAccepted(rules, Run(rules, EMPTY_MEMORY, schedule), Run(rules, start, schedule), t);
  }
}
