/** The repository contract of `orders/ports.py` as one operation type, and the in-memory
    repository of `orders/fakes.py` as a transition function and as the class it is. */
module OrderMemory {
  import opened Common
  import opened OrderModels

  datatype Op =
    | Prepare(candidate: Aggregate)
    | Get(id: Id)
    | ClaimPrepared(id: Id)
    | RecordSuccess(id: Id, reference: Text)
    | RecordSafeFailure(id: Id, code: SafeFailureCode)
    | RecordUnknown(id: Id)
    | BeginReconciliation(id: Id)
    | CreateDelivery(id: Id)
    | FinishDelivery(delivery: Id, succeeded: bool, failure: Option<Text>)

  datatype Reply =
    | PrepareReply(aggregate: Aggregate, created: bool)
    | AggregateReply(aggregate: Aggregate)
    | NotClaimed
    | ReconcileReply(aggregate: Aggregate, shouldReconcile: bool)
    | DeliveryReply(delivery: DeliveryRecord)
    | Refused(error: OrderError)

  datatype MemStore = MemStore(byId: map<Id, Aggregate>, idByKey: map<Text, Id>)

  const EMPTY_STORE := MemStore(map[], map[])

  function Put(m: MemStore, id: Id, a: Aggregate): MemStore {
    m.(byId := m.byId[id := a])
  }

  function MemPrepare(m: MemStore, c: Aggregate): (MemStore, Reply) {
    if !Consistent(c) then (m, Refused(PersistenceInvariant))
    else if c.intent.terms.key in m.idByKey then
      var id := m.idByKey[c.intent.terms.key];
      if id !in m.byId then (m, Refused(OrderNotFound))
      else if !Consistent(m.byId[id]) then (m, Refused(PersistenceInvariant))
      else if !SameRequest(m.byId[id], c) then (m, Refused(IdempotencyConflict))
      else (m, PrepareReply(m.byId[id], false))
    else
      (MemStore(m.byId[c.intent.terms.id := c], m.idByKey[c.intent.terms.key := c.intent.terms.id]), PrepareReply(c, true))
  }

  function MemClaim(m: MemStore, id: Id): (MemStore, Reply) {
    if id !in m.byId then (m, Refused(OrderNotFound))
    else if m.byId[id].intent.state != Prepared then (m, NotClaimed)
    else
      var updated := ReplacePurchase(m.byId[id], Dispatching, None, None);
      (Put(m, id, updated), AggregateReply(updated))
  }

  function MemSuccess(rules: TextRules, m: MemStore, id: Id, reference: Text): (MemStore, Reply) {
    if reference !in rules.safe128 then (m, Refused(InvalidOrderInput))
    else if id !in m.byId then (m, Refused(OrderNotFound))
    else
      var a := m.byId[id];
      if a.intent.state == Succeeded then
        if a.attempt.reference != Some(reference) then (m, Refused(OrderStateConflict))
        else (m, AggregateReply(a))
      else if a.intent.state !in {Dispatching, Reconciling} then (m, Refused(OrderStateConflict))
      else
        var updated := ReplacePurchase(a, Succeeded, Some(reference), None);
        (Put(m, id, updated), AggregateReply(updated))
  }

  function MemSafeFailure(m: MemStore, id: Id, code: SafeFailureCode): (MemStore, Reply) {
    if id !in m.byId then (m, Refused(OrderNotFound))
    else
      var a := m.byId[id];
      if a.intent.state == FailedSafe then
        if a.attempt.failure != Some(code) then (m, Refused(OrderStateConflict))
        else (m, AggregateReply(a))
      else if a.intent.state !in {Dispatching, Reconciling} then (m, Refused(OrderStateConflict))
      else
        var updated := ReplacePurchase(a, FailedSafe, None, Some(code));
        (Put(m, id, updated), AggregateReply(updated))
  }

  function MemUnknown(m: MemStore, id: Id): (MemStore, Reply) {
    if id !in m.byId then (m, Refused(OrderNotFound))
    else
      var a := m.byId[id];
      if a.intent.state in {Unknown, Reconciling} then (m, AggregateReply(a))
      else if a.intent.state != Dispatching then (m, Refused(OrderStateConflict))
      else
        var updated := ReplacePurchase(a, Unknown, None, None);
        (Put(m, id, updated), AggregateReply(updated))
  }

  function MemBegin(m: MemStore, id: Id): (MemStore, Reply) {
    if id !in m.byId then (m, Refused(OrderNotFound))
    else
      var a := m.byId[id];
      if a.intent.state == Unknown then
        var updated := ReplacePurchase(a, Reconciling, None, None);
        (Put(m, id, updated), ReconcileReply(updated, true))
      else if a.intent.state == Reconciling then (m, ReconcileReply(a, true))
      else if Terminal(a.intent.state) then (m, ReconcileReply(a, false))
      else (m, Refused(OrderStateConflict))
  }

  function MemCreateDelivery(m: MemStore, id: Id): (MemStore, Reply) {
    if id !in m.byId then (m, Refused(OrderNotFound))
    else
      var a := m.byId[id];
      var number := MaxNumber(a.deliveries) + 1;
      if a.intent.state != Succeeded then (m, Refused(DeliveryNotAllowed))
      else if number > MAX_QUANTITY then (m, Refused(InvalidOrderInput))
      else
        var d := NewDelivery(id, number);
        (Put(m, id, a.(deliveries := a.deliveries + [d])), DeliveryReply(d))
  }

  /** Where a delivery attempt is stored. */
  ghost predicate At(m: MemStore, delivery: Id, id: Id, index: nat) {
    id in m.byId && index < |m.byId[id].deliveries| && m.byId[id].deliveries[index].terms.id == delivery
  }

  function FinishedStatus(succeeded: bool): DeliveryState {
    if succeeded then Delivered else Undelivered
  }

  function FinishedFailure(succeeded: bool, failure: Option<Text>): Option<Text> {
    if succeeded then None else failure
  }

  predicate FailureTextOk(rules: TextRules, succeeded: bool, failure: Option<Text>) {
    succeeded || (failure.Some? && failure.value in rules.safe64)
  }

  /** What finishing one found attempt gives: the new record, or the conflict. */
  function FinishRecord(d: DeliveryRecord, succeeded: bool, failure: Option<Text>): Result<DeliveryRecord, OrderError> {
    var target, expected := FinishedStatus(succeeded), FinishedFailure(succeeded, failure);
    if d.status != Pending then
      if d.status == target && d.failure == expected then Ok(d) else Err(OrderStateConflict)
    else Ok(d.(status := target, failure := expected))
  }

  /** Finishing the attempt stored at a known place. */
  function FinishAt(
    rules: TextRules, m: MemStore, id: Id, index: nat, succeeded: bool, failure: Option<Text>): (MemStore, Reply)
    requires id in m.byId && index < |m.byId[id].deliveries|
  {
    if !FailureTextOk(rules, succeeded, failure) then (m, Refused(InvalidOrderInput))
    else
      var a := m.byId[id];
      match FinishRecord(a.deliveries[index], succeeded, failure)
      case Err(e) => (m, Refused(e))
      case Ok(d) => (Put(m, id, a.(deliveries := a.deliveries[index := d])), DeliveryReply(d))
  }

  ghost predicate Present(m: MemStore, delivery: Id) {
    exists id, index: nat :: At(m, delivery, id, index)
  }

  ghost function Locate(m: MemStore, delivery: Id): (place: (Id, nat))
    requires Present(m, delivery)
    ensures At(m, delivery, place.0, place.1)
  {
    var id, index: nat :| At(m, delivery, id, index);
    (id, index)
  }

  ghost function MemFinish(rules: TextRules, m: MemStore, delivery: Id, succeeded: bool, failure: Option<Text>)
    : (MemStore, Reply)
  {
    if !Present(m, delivery) then (m, Refused(OrderNotFound))
    else
      var place := Locate(m, delivery);
      FinishAt(rules, m, place.0, place.1, succeeded, failure)
  }

  ghost function MemApply(rules: TextRules, m: MemStore, op: Op): (MemStore, Reply) {
    match op
    case Prepare(c) => MemPrepare(m, c)
    case Get(id) => if id in m.byId then (m, AggregateReply(m.byId[id])) else (m, Refused(OrderNotFound))
    case ClaimPrepared(id) => MemClaim(m, id)
    case RecordSuccess(id, reference) => MemSuccess(rules, m, id, reference)
    case RecordSafeFailure(id, code) => MemSafeFailure(m, id, code)
    case RecordUnknown(id) => MemUnknown(m, id)
    case BeginReconciliation(id) => MemBegin(m, id)
    case CreateDelivery(id) => MemCreateDelivery(m, id)
    case FinishDelivery(d, succeeded, failure) => MemFinish(rules, m, d, succeeded, failure)
  }

  /** The invariant of every store the service can reach. */
  ghost predicate MemInv(m: MemStore) {
    && (forall id :: id in m.byId ==> Stored(id, m.byId[id]))
    && (forall k :: k in m.idByKey <==> IntentUuid(k) in m.byId)
    && (forall k :: k in m.idByKey ==> m.idByKey[k] == IntentUuid(k))
  }

  /** What a caller must bring: only `prepare` has a condition on its argument. */
  ghost predicate OpOk(op: Op) { op.Prepare? ==> Admissible(op.candidate) }

  /** A delivery id names at most one place in a store that satisfies the invariant. */
  lemma UniqueDelivery(m: MemStore, delivery: Id, id: Id, index: nat, id': Id, index': nat)
    requires MemInv(m) && At(m, delivery, id, index) && At(m, delivery, id', index')
    ensures id == id' && index == index'
  {
    assert Stored(id, m.byId[id]) && Stored(id', m.byId[id']);
    assert m.byId[id].deliveries[index].terms.id == DeliveryUuid(id, index + 1);
    assert m.byId[id'].deliveries[index'].terms.id == DeliveryUuid(id', index' + 1);
  }

  /** The only ways one order can change: its purchase moves while it is not terminal, a
      succeeded order gains its next delivery attempt, or a pending attempt is finished. */
  ghost predicate Evolves(id: Id, a: Aggregate, b: Aggregate) {
    || b == a
    || PurchaseMoved(a, b)
    || (a.intent.state == Succeeded && b == a.(deliveries := a.deliveries + [NewDelivery(id, |a.deliveries| + 1)]))
    || exists i :: 0 <= i < |a.deliveries| && DeliveryFinished(a, b, i)
  }

  ghost predicate PurchaseMoved(a: Aggregate, b: Aggregate) {
    && !Terminal(a.intent.state)
    && b == ReplacePurchase(a, b.intent.state, b.attempt.reference, b.attempt.failure)
    && (b.attempt.reference.Some? <==> b.intent.state == Succeeded)
    && (b.attempt.failure.Some? <==> b.intent.state == FailedSafe)
    && b.intent.state != Prepared
  }

  ghost predicate DeliveryFinished(a: Aggregate, b: Aggregate, i: nat)
    requires i < |a.deliveries|
  {
    && a.deliveries[i].status == Pending
    && |b.deliveries| == |a.deliveries|
    && b == a.(deliveries := a.deliveries[i := b.deliveries[i]])
    && b.deliveries[i] == a.deliveries[i].(status := b.deliveries[i].status, failure := b.deliveries[i].failure)
    && b.deliveries[i].status != Pending
    && (b.deliveries[i].failure.Some? ==> b.deliveries[i].status == Undelivered)
  }

  lemma EvolvesKeepsStored(id: Id, a: Aggregate, b: Aggregate)
    requires Stored(id, a) && Evolves(id, a, b)
    ensures Stored(id, b)
  {
  }

  lemma FinishEvolves(
    rules: TextRules, m: MemStore, id: Id, index: nat, succeeded: bool, failure: Option<Text>)
    requires id in m.byId && index < |m.byId[id].deliveries|
    ensures var m' := FinishAt(rules, m, id, index, succeeded, failure).0;
      m' == Put(m, id, m'.byId[id]) && Evolves(id, m.byId[id], m'.byId[id])
  {
    var a, m' := m.byId[id], FinishAt(rules, m, id, index, succeeded, failure).0;
    assert a.deliveries[index := a.deliveries[index]] == a.deliveries;
    assert Put(m, id, a) == m;
    if m'.byId[id] != a {
      assert DeliveryFinished(a, m'.byId[id], index);
    }
  }

  /** The store changed at most at `id`, and the order there evolved. */
  ghost predicate OnlyAt(m: MemStore, m': MemStore, id: Id) {
    m' == m || (id in m.byId && id in m'.byId && m' == Put(m, id, m'.byId[id]) && Evolves(id, m.byId[id], m'.byId[id]))
  }

  lemma PurchaseEvolves(rules: TextRules, m: MemStore, op: Op)
    requires op.ClaimPrepared? || op.RecordSuccess? || op.RecordSafeFailure? || op.RecordUnknown? || op.BeginReconciliation?
    ensures OnlyAt(m, MemApply(rules, m, op).0, op.id)
  {
    var id, m' := op.id, MemApply(rules, m, op).0;
    if id in m.byId && m' != m {
      assert m' == Put(m, id, m'.byId[id]);
      assert PurchaseMoved(m.byId[id], m'.byId[id]);
    }
  }

  lemma CreationEvolves(rules: TextRules, m: MemStore, op: Op)
    requires MemInv(m) && op.CreateDelivery?
    ensures OnlyAt(m, MemApply(rules, m, op).0, op.id)
  {
    if op.id in m.byId {
      assert Stored(op.id, m.byId[op.id]);
      MaxOfNumbered(op.id, m.byId[op.id].deliveries);
      hide MaxNumber, SoundTerms;
    }
  }

  /** A call that is not `prepare` changes at most one order, and only by evolving it. */
  lemma OneOrderEvolves(rules: TextRules, m: MemStore, op: Op) returns (id: Id)
    requires MemInv(m) && !op.Prepare?
    ensures OnlyAt(m, MemApply(rules, m, op).0, id)
  {
    if op.FinishDelivery? {
      id := op.delivery;
      if Present(m, op.delivery) {
        var place := Locate(m, op.delivery);
        id := place.0;
        FinishEvolves(rules, m, place.0, place.1, op.succeeded, op.failure);
      }
    } else {
      id := op.id;
      if op.CreateDelivery? {
        CreationEvolves(rules, m, op);
      } else if !op.Get? {
        PurchaseEvolves(rules, m, op);
      }
    }
  }

  /** Every order that exists evolves (or stays) under every call; none disappears. */
  lemma EveryOrderEvolves(rules: TextRules, m: MemStore, op: Op, id: Id)
    requires MemInv(m) && OpOk(op) && id in m.byId
    ensures id in MemApply(rules, m, op).0.byId
    ensures Evolves(id, m.byId[id], MemApply(rules, m, op).0.byId[id])
  {
    if op.Prepare? {
      assert Stored(id, m.byId[id]);
    } else {
      var changed := OneOrderEvolves(rules, m, op);
    }
  }

  lemma PutKeepsInv(m: MemStore, id: Id, b: Aggregate)
    requires MemInv(m) && id in m.byId && Evolves(id, m.byId[id], b)
    ensures MemInv(Put(m, id, b))
  {
    assert Stored(id, m.byId[id]);
    EvolvesKeepsStored(id, m.byId[id], b);
    assert b.intent.terms.key == m.byId[id].intent.terms.key;
  }

  lemma PrepareKeepsInv(m: MemStore, c: Aggregate)
    requires MemInv(m) && Admissible(c)
    ensures MemInv(MemPrepare(m, c).0)
  {
    AdmissibleIsStored(c);
    hide Admissible, Stored, SameRequest;
    if c.intent.terms.key !in m.idByKey {
      forall id | id in m.byId ensures id != c.intent.terms.id && Stored(id, m.byId[id]) && m.byId[id].intent.terms.key in m.idByKey {
      }
    }
  }

  lemma AdmissibleIsStored(c: Aggregate)
    requires Admissible(c)
    ensures Stored(c.intent.terms.id, c) && c.intent.terms.id == IntentUuid(c.intent.terms.key)
  {
  }

  /** Every repository call keeps the store invariant. */
  lemma MemKeepsInv(rules: TextRules, m: MemStore, op: Op)
    requires MemInv(m) && OpOk(op)
    ensures MemInv(MemApply(rules, m, op).0)
  {
    if op.Prepare? {
      PrepareKeepsInv(m, op.candidate);
    } else {
      var id := OneOrderEvolves(rules, m, op);
      var m' := MemApply(rules, m, op).0;
      if m' != m {
        PutKeepsInv(m, id, m'.byId[id]);
      }
    }
  }

  /** What every repository call leaves alone: no order disappears, and no call changes what was
      ordered, at what price, from whom or under which keys. */
  lemma ObligationIsFixed(rules: TextRules, m: MemStore, op: Op, id: Id)
    requires MemInv(m) && OpOk(op) && id in m.byId
    ensures var m' := MemApply(rules, m, op).0;
      id in m'.byId && SameObligation(m.byId[id], m'.byId[id])
  {
    EveryOrderEvolves(rules, m, op, id);
  }

  /** A terminal order never changes its purchase again, and delivery calls never touch a purchase. */
  lemma TerminalIsFinal(rules: TextRules, m: MemStore, op: Op, id: Id)
    requires MemInv(m) && OpOk(op) && id in m.byId
    requires Terminal(m.byId[id].intent.state) || op.CreateDelivery? || op.FinishDelivery?
    ensures var m' := MemApply(rules, m, op).0;
      id in m'.byId && m'.byId[id].intent == m.byId[id].intent && m'.byId[id].attempt == m.byId[id].attempt
  {
    hide Stored;
    EveryOrderEvolves(rules, m, op, id);
    if op.FinishDelivery? && Present(m, op.delivery) {
      var place := Locate(m, op.delivery);
      FinishEvolves(rules, m, place.0, place.1, op.succeeded, op.failure);
    }
  }

  /** Delivery attempts are only ever appended, keep their number and keys, and once one left
      PENDING it is frozen. */
  ghost predicate DeliveriesExtend(a: Aggregate, b: Aggregate) {
    && |a.deliveries| <= |b.deliveries|
    && forall i :: 0 <= i < |a.deliveries| ==>
      && (a.deliveries[i].status != Pending ==> b.deliveries[i] == a.deliveries[i])
      && b.deliveries[i] == a.deliveries[i].(status := b.deliveries[i].status, failure := b.deliveries[i].failure)
  }

  lemma DeliveriesOnlyGrow(rules: TextRules, m: MemStore, op: Op, id: Id)
    requires MemInv(m) && OpOk(op) && id in m.byId
    ensures var m' := MemApply(rules, m, op).0;
      id in m'.byId && DeliveriesExtend(m.byId[id], m'.byId[id])
  {
    EveryOrderEvolves(rules, m, op, id);
  }

  /** Finishing a stored attempt, wherever the scan finds it. */
  lemma FinishIsAt(rules: TextRules, m: MemStore, id: Id, index: nat, delivery: Id, succeeded: bool, failure: Option<Text>)
    requires MemInv(m) && At(m, delivery, id, index)
    ensures MemFinish(rules, m, delivery, succeeded, failure) == FinishAt(rules, m, id, index, succeeded, failure)
  {
    hide Stored, FinishAt;
    assert Present(m, delivery);
    var place := Locate(m, delivery);
    UniqueDelivery(m, delivery, id, index, place.0, place.1);
  }

  /** A second finish of an attempt: the same outcome is answered alike, a different one is a conflict,
      and neither changes anything. */
  lemma FinishedIsFrozen(
    rules: TextRules, m: MemStore, delivery: Id, succeeded: bool, failure: Option<Text>,
    succeeded': bool, failure': Option<Text>)
    requires MemInv(m) && !MemFinish(rules, m, delivery, succeeded, failure).1.Refused?
    ensures var (m', reply) := MemFinish(rules, m, delivery, succeeded, failure);
      MemFinish(rules, m', delivery, succeeded', failure') ==
        (m', if !succeeded' && (failure'.None? || failure'.value !in rules.safe64) then Refused(InvalidOrderInput)
             else if succeeded' == succeeded && (succeeded || failure' == failure) then reply
             else Refused(OrderStateConflict))
  {
    hide MemInv;
    var place := Locate(m, delivery);
    var m' := MemFinish(rules, m, delivery, succeeded, failure).0;
    FinishEvolves(rules, m, place.0, place.1, succeeded, failure);
    assert MemInv(m') by { MemKeepsInv(rules, m, FinishDelivery(delivery, succeeded, failure)); }
    assert At(m', delivery, place.0, place.1);
    FinishIsAt(rules, m', place.0, place.1, delivery, succeeded', failure');
    FinishedAgain(rules, m, place.0, place.1, succeeded, failure, succeeded', failure');
  }

  lemma FinishedAgain(
    rules: TextRules, m: MemStore, id: Id, index: nat, succeeded: bool, failure: Option<Text>,
    succeeded': bool, failure': Option<Text>)
    requires id in m.byId && index < |m.byId[id].deliveries| && !FinishAt(rules, m, id, index, succeeded, failure).1.Refused?
    ensures var (m', reply) := FinishAt(rules, m, id, index, succeeded, failure);
      && id in m'.byId && index < |m'.byId[id].deliveries|
      && FinishAt(rules, m', id, index, succeeded', failure') ==
         (m', if !succeeded' && (failure'.None? || failure'.value !in rules.safe64) then Refused(InvalidOrderInput)
              else if succeeded' == succeeded && (succeeded || failure' == failure) then reply
              else Refused(OrderStateConflict))
  {
    var (m', reply) := FinishAt(rules, m, id, index, succeeded, failure);
    var a := m'.byId[id];
    assert a.deliveries[index := a.deliveries[index]] == a.deliveries;
    assert Put(m', id, a) == m';
  }

  /** What a repeated call is answered: every accepted call but a claim and a new delivery is answered
      alike and changes nothing more, and a second claim is never won. */
  lemma RepeatChangesNothing(rules: TextRules, m: MemStore, op: Op)
    requires MemInv(m) && OpOk(op) && !op.CreateDelivery? && !MemApply(rules, m, op).1.Refused?
    ensures var (m', reply) := MemApply(rules, m, op);
      var (m'', again) := MemApply(rules, m', op);
      && m'' == m'
      && again == (if op.ClaimPrepared? then NotClaimed
                   else if op.Prepare? then PrepareReply(reply.aggregate, false)
                   else reply)
  {
    hide FinishAt, FailureTextOk, MemPrepare, MemClaim, MemSuccess, MemSafeFailure, MemUnknown, MemBegin, MemFinish;
    if op.FinishDelivery? {
      FinishedIsFrozen(rules, m, op.delivery, op.succeeded, op.failure, op.succeeded, op.failure);
      FinishIsChecked(rules, m, op.delivery, op.succeeded, op.failure);
    } else if op.Prepare? {
      PreparedAgain(m, op.candidate);
    } else {
      hide MemInv;
      MoveRepeats(rules, m, op);
    }
  }

  lemma MoveRepeats(rules: TextRules, m: MemStore, op: Op)
    requires !op.Prepare? && !op.CreateDelivery? && !op.FinishDelivery? && !MemApply(rules, m, op).1.Refused?
    ensures var (m', reply) := MemApply(rules, m, op);
      MemApply(rules, m', op) == (m', if op.ClaimPrepared? then NotClaimed else reply)
  {
  }

  lemma FinishIsChecked(rules: TextRules, m: MemStore, delivery: Id, succeeded: bool, failure: Option<Text>)
    requires !MemFinish(rules, m, delivery, succeeded, failure).1.Refused?
    ensures !succeeded ==> failure.Some? && failure.value in rules.safe64
  {
  }

  lemma PreparedAgain(m: MemStore, c: Aggregate)
    requires MemInv(m) && Admissible(c) && !MemPrepare(m, c).1.Refused?
    ensures var (m', reply) := MemPrepare(m, c);
      MemPrepare(m', c) == (m', PrepareReply(reply.aggregate, false))
  {
    AdmissibleIsStored(c);
    hide Stored, Admissible, MemInv;
  }

  /** The in-memory repository itself: two dictionaries updated in place. */
  class InMemoryOrderRepository {
    var byId: map<Id, Aggregate>
    var idByKey: map<Text, Id>

    ghost function Contents(): MemStore reads this { MemStore(byId, idByKey) }

    constructor ()
      ensures Contents() == EMPTY_STORE
    {
      byId, idByKey := map[], map[];
    }

    method Prepare(candidate: Aggregate) returns (reply: Reply)
      requires MemInv(Contents())
      modifies this
      ensures (Contents(), reply) == MemPrepare(old(Contents()), candidate)
    {
      if !Consistent(candidate) {
        return Refused(PersistenceInvariant);
      }
      var key := candidate.intent.terms.key;
      if key in idByKey {
        var existing := byId[idByKey[key]];
        if !Consistent(existing) {
          return Refused(PersistenceInvariant);
        }
        if !SameRequest(existing, candidate) {
          return Refused(IdempotencyConflict);
        }
        return PrepareReply(existing, false);
      }
      byId := byId[candidate.intent.terms.id := candidate];
      idByKey := idByKey[key := candidate.intent.terms.id];
      return PrepareReply(candidate, true);
    }

    method Get(id: Id) returns (reply: Reply)
      ensures forall rules :: (Contents(), reply) == MemApply(rules, Contents(), Op.Get(id))
    {
      reply := if id in byId then AggregateReply(byId[id]) else Refused(OrderNotFound);
    }

    method ClaimPrepared(id: Id) returns (reply: Reply)
      modifies this
      ensures (Contents(), reply) == MemClaim(old(Contents()), id)
    {
      if id !in byId {
        return Refused(OrderNotFound);
      }
      if byId[id].intent.state != Prepared {
        return NotClaimed;
      }
      var updated := ReplacePurchase(byId[id], Dispatching, None, None);
      byId := byId[id := updated];
      return AggregateReply(updated);
    }

    method RecordSuccess(rules: TextRules, id: Id, reference: Text) returns (reply: Reply)
      modifies this
      ensures (Contents(), reply) == MemSuccess(rules, old(Contents()), id, reference)
    {
      if reference !in rules.safe128 {
        return Refused(InvalidOrderInput);
      }
      if id !in byId {
        return Refused(OrderNotFound);
      }
      var current := byId[id].intent.state;
      if current == Succeeded {
        if byId[id].attempt.reference != Some(reference) {
          return Refused(OrderStateConflict);
        }
        return AggregateReply(byId[id]);
      }
      if current !in {Dispatching, Reconciling} {
        return Refused(OrderStateConflict);
      }
      var updated := ReplacePurchase(byId[id], Succeeded, Some(reference), None);
      byId := byId[id := updated];
      return AggregateReply(updated);
    }

    method RecordSafeFailure(id: Id, code: SafeFailureCode) returns (reply: Reply)
      modifies this
      ensures (Contents(), reply) == MemSafeFailure(old(Contents()), id, code)
    {
      if id !in byId {
        return Refused(OrderNotFound);
      }
      var current := byId[id].intent.state;
      if current == FailedSafe {
        if byId[id].attempt.failure != Some(code) {
          return Refused(OrderStateConflict);
        }
        return AggregateReply(byId[id]);
      }
      if current !in {Dispatching, Reconciling} {
        return Refused(OrderStateConflict);
      }
      var updated := ReplacePurchase(byId[id], FailedSafe, None, Some(code));
      byId := byId[id := updated];
      return AggregateReply(updated);
    }

    method RecordUnknown(id: Id) returns (reply: Reply)
      modifies this
      ensures (Contents(), reply) == MemUnknown(old(Contents()), id)
    {
      if id !in byId {
        return Refused(OrderNotFound);
      }
      var current := byId[id].intent.state;
      if current in {Unknown, Reconciling} {
        return AggregateReply(byId[id]);
      }
      if current != Dispatching {
        return Refused(OrderStateConflict);
      }
      var updated := ReplacePurchase(byId[id], Unknown, None, None);
      byId := byId[id := updated];
      return AggregateReply(updated);
    }

    method BeginReconciliation(id: Id) returns (reply: Reply)
      modifies this
      ensures (Contents(), reply) == MemBegin(old(Contents()), id)
    {
      if id !in byId {
        return Refused(OrderNotFound);
      }
      var aggregate := byId[id];
      if aggregate.intent.state == Unknown {
        aggregate := ReplacePurchase(aggregate, Reconciling, None, None);
        byId := byId[id := aggregate];
        return ReconcileReply(aggregate, true);
      }
      if aggregate.intent.state == Reconciling {
        return ReconcileReply(aggregate, true);
      }
      if Terminal(aggregate.intent.state) {
        return ReconcileReply(aggregate, false);
      }
      return Refused(OrderStateConflict);
    }

    method CreateDeliveryAttempt(id: Id) returns (reply: Reply)
      modifies this
      ensures (Contents(), reply) == MemCreateDelivery(old(Contents()), id)
    {
      if id !in byId {
        return Refused(OrderNotFound);
      }
      var aggregate := byId[id];
      if aggregate.intent.state != Succeeded {
        return Refused(DeliveryNotAllowed);
      }
      var number := MaxNumber(aggregate.deliveries) + 1;
      if number > MAX_QUANTITY {
        return Refused(InvalidOrderInput);
      }
      var attempt := NewDelivery(id, number);
      byId := byId[id := aggregate.(deliveries := aggregate.deliveries + [attempt])];
      return DeliveryReply(attempt);
    }

    /** The scan of `_find_delivery`: outer loop over orders, inner loop over their attempts. */
    method FindDelivery(delivery: Id) returns (found: Option<(Id, nat)>)
      ensures found.Some? ==> At(Contents(), delivery, found.value.0, found.value.1)
      ensures found.None? ==> !Present(Contents(), delivery)
    {
      var rest := byId.Keys;
      while rest != {}
        invariant rest <= byId.Keys
        invariant forall id, index :: At(Contents(), delivery, id, index) ==> id in rest
        decreases |rest|
      {
        var id :| id in rest;
        var attempts := byId[id].deliveries;
        for index := 0 to |attempts|
          invariant forall i :: 0 <= i < index ==> attempts[i].terms.id != delivery
        {
          if attempts[index].terms.id == delivery {
            return Some((id, index));
          }
        }
        rest := rest - {id};
      }
      return None;
    }

    method FinishDelivery(rules: TextRules, delivery: Id, succeeded: bool, failure: Option<Text>)
      returns (reply: Reply)
      requires MemInv(Contents())
      modifies this
      ensures (Contents(), reply) == MemFinish(rules, old(Contents()), delivery, succeeded, failure)
    {
      var found := FindDelivery(delivery);
      if found.None? {
        return Refused(OrderNotFound);
      }
      var id, index := found.value.0, found.value.1;
      ghost var place := Locate(Contents(), delivery);
      UniqueDelivery(Contents(), delivery, id, index, place.0, place.1);
      if !FailureTextOk(rules, succeeded, failure) {
        return Refused(InvalidOrderInput);
      }
      var aggregate := byId[id];
      var target, expected := FinishedStatus(succeeded), FinishedFailure(succeeded, failure);
      var attempt := aggregate.deliveries[index];
      if attempt.status != Pending {
        if attempt.status == target && attempt.failure == expected {
          assert aggregate.deliveries[index := attempt] == aggregate.deliveries;
          assert byId[id := aggregate] == byId;
          return DeliveryReply(attempt);
        }
        return Refused(OrderStateConflict);
      }
      var updated := attempt.(status := target, failure := expected);
      byId := byId[id := aggregate.(deliveries := aggregate.deliveries[index := updated])];
      return DeliveryReply(updated);
    }
  }
}
