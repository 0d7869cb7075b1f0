/** The three-table PostgreSQL repository of `orders/repository.py`, and the proof that it refines
    the in-memory repository under the `_load` join. */
module OrderTables {
  import opened Common
  import opened OrderModels
  import opened OrderMemory

  /** The columns of an `order_intents` row that are never updated: both prices share one
      currency column and one unit column. */
  datatype IntentColumns = IntentColumns(
    id: Id,
    key: Text,
    customer: Text,
    productId: Text,
    variantId: Text,
    quantity: int,
    unitPriceMinor: int,
    maxUnitPriceMinor: int,
    currency: Text,
    moneyUnit: MoneyUnit)

  datatype IntentRow = IntentRow(columns: IntentColumns, state: PurchaseState)

  /** `order_intents` by primary key, `supplier_order_attempts` by its unique `order_intent_id`,
      and `delivery_attempts` in insertion order. */
  datatype Tables = Tables(
    intents: map<Id, IntentRow>,
    attempts: map<Id, AttemptRecord>,
    deliveries: seq<DeliveryRecord>)

  const EMPTY_TABLES := Tables(map[], map[], [])

  function ColumnsOf(i: IntentTerms): IntentColumns {
    IntentColumns(i.id, i.key, i.customer, i.productId, i.variantId, i.quantity, i.unitPrice.amount,
                  i.maxUnitPrice.amount, i.unitPrice.currency, i.unitPrice.unit)
  }

  /** `_intent_from_row`, before the money validators run. */
  function TermsOf(c: IntentColumns): IntentTerms {
    IntentTerms(c.id, c.key, c.customer, c.productId, c.variantId, c.quantity,
                Money(c.unitPriceMinor, c.currency, c.moneyUnit),
                Money(c.maxUnitPriceMinor, c.currency, c.moneyUnit))
  }

  /** The CHECK constraints of `order_intents`. */
  predicate RowChecks(rules: TextRules, c: IntentColumns) {
    && 0 < c.quantity
    && 0 <= c.unitPriceMinor <= c.maxUnitPriceMinor
    && c.currency in rules.currency
    && c.moneyUnit == Minor
  }

  /** The rows of one order, in table order. */
  function Select(rows: seq<DeliveryRecord>, order: Id): seq<DeliveryRecord> {
    if rows == [] then []
    else
      var last := rows[|rows| - 1];
      Select(rows[..|rows| - 1], order) + (if last.terms.orderId == order then [last] else [])
  }

  function InsertByNumber(rows: seq<DeliveryRecord>, d: DeliveryRecord): seq<DeliveryRecord> {
    if rows == [] then [d]
    else
      var last := rows[|rows| - 1];
      if last.terms.number <= d.terms.number then rows + [d]
      else InsertByNumber(rows[..|rows| - 1], d) + [last]
  }

  /** `ORDER BY attempt_number`. */
  function OrderByNumber(rows: seq<DeliveryRecord>): seq<DeliveryRecord> {
    if rows == [] then []
    else InsertByNumber(OrderByNumber(rows[..|rows| - 1]), rows[|rows| - 1])
  }

  /** `_load`: the join of the three tables, with every check the source makes on the way. */
  function Load(rules: TextRules, t: Tables, id: Id): Result<Aggregate, OrderError> {
    if id !in t.intents then Err(OrderNotFound)
    else if id !in t.attempts then Err(PersistenceInvariant)
    else
      var a := Aggregate(IntentRecord(TermsOf(t.intents[id].columns), t.intents[id].state), t.attempts[id], OrderByNumber(Select(t.deliveries, id)));
      if !ValidMoney(rules, a.intent.terms.unitPrice) || !ValidMoney(rules, a.intent.terms.maxUnitPrice) then Err(InvalidOrderInput)
      else if !ValidPayload(rules, a.attempt.terms.payload) then Err(PersistenceInvariant)
      else if !Consistent(a) then Err(PersistenceInvariant)
      else Ok(a)
  }

  ghost predicate KeyTaken(t: Tables, key: Text) {
    exists id :: id in t.intents && t.intents[id].columns.key == key
  }

  ghost function KeyHolder(t: Tables, key: Text): (id: Id)
    requires KeyTaken(t, key)
    ensures id in t.intents && t.intents[id].columns.key == key
  {
    var id :| id in t.intents && t.intents[id].columns.key == key;
    id
  }

  /** The unique constraints on intents and attempts. */
  ghost predicate Constraints(t: Tables) {
    && (forall id :: id in t.intents ==> t.intents[id].columns.id == id)
    && (forall id, id' :: id in t.intents && id' in t.intents && t.intents[id].columns.key == t.intents[id'].columns.key ==> id == id')
    && (forall id :: id in t.attempts ==> id in t.intents)
  }

  /** Inserting an attempt row would break `pk`, `uq_order_intent` or `uq_request_key`. */
  predicate AttemptConflicts(attempts: map<Id, AttemptRecord>, row: AttemptRecord) {
    || row.terms.orderId in attempts
    || exists id :: id in attempts && (attempts[id].terms.id == row.terms.id || attempts[id].terms.requestKey == row.terms.requestKey)
  }

  predicate DeliveryConflicts(rows: seq<DeliveryRecord>, row: DeliveryRecord) {
    exists i :: 0 <= i < |rows| &&
      (rows[i].terms.id == row.terms.id || rows[i].terms.key == row.terms.key || (rows[i].terms.orderId == row.terms.orderId && rows[i].terms.number == row.terms.number))
  }

  function PreparedAttempt(a: AttemptRecord): AttemptRecord {
    a.(status := Prepared, reference := None, failure := None)
  }

  /** The two INSERT statements of `prepare`: both status columns start at PREPARED, whatever the
      candidate says. */
  function Insert(t: Tables, c: Aggregate): Tables {
    t.(intents := t.intents[c.intent.terms.id := IntentRow(ColumnsOf(c.intent.terms), Prepared)],
       attempts := t.attempts[c.attempt.terms.orderId := PreparedAttempt(c.attempt)])
  }

  ghost function TabPrepare(rules: TextRules, t: Tables, c: Aggregate): (Tables, Reply) {
    if !Consistent(c) then (t, Refused(PersistenceInvariant))
    else if !RowChecks(rules, ColumnsOf(c.intent.terms)) then (t, Refused(IntegrityViolation))
    else if KeyTaken(t, c.intent.terms.key) then
      match Load(rules, t, KeyHolder(t, c.intent.terms.key))
      case Err(e) => (t, Refused(e))
      case Ok(existing) =>
        if !SameRequest(existing, c) then (t, Refused(IdempotencyConflict))
        else (t, PrepareReply(existing, false))
    else if c.intent.terms.id in t.intents || AttemptConflicts(t.attempts, c.attempt) then
      (t, Refused(IntegrityViolation))
    else (Insert(t, c), PrepareReply(c, true))
  }

  /** The two UPDATE statements of `_set_purchase_state`. */
  function SetPurchaseState(
    t: Tables, id: Id, state: PurchaseState, reference: Option<Text>, failure: Option<SafeFailureCode>): Tables
    requires id in t.intents && id in t.attempts
  {
    t.(intents := t.intents[id := t.intents[id].(state := state)],
       attempts := t.attempts[id := t.attempts[id].(status := state, reference := reference, failure := failure)])
  }

  function TabGet(rules: TextRules, t: Tables, id: Id): (Tables, Reply) {
    match Load(rules, t, id)
    case Err(e) => (t, Refused(e))
    case Ok(a) => (t, AggregateReply(a))
  }

  /** `claim_prepared` on the loaded order: it updates both status columns and no other. */
  function ClaimLoaded(t: Tables, id: Id, a: Aggregate): (Tables, Reply)
    requires id in t.intents && id in t.attempts
  {
    if a.intent.state != Prepared then (t, NotClaimed)
    else
      (SetPurchaseState(t, id, Dispatching, t.attempts[id].reference, t.attempts[id].failure),
       AggregateReply(ReplacePurchase(a, Dispatching, None, None)))
  }

  function TabClaim(rules: TextRules, t: Tables, id: Id): (Tables, Reply) {
    match Load(rules, t, id)
    case Err(e) => (t, Refused(e))
    case Ok(a) => ClaimLoaded(t, id, a)
  }

  /** `_record_terminal` on the loaded order: a repeated terminal record must match on both
      metadata columns. */
  function TerminalLoaded(
    t: Tables, id: Id, a: Aggregate, state: PurchaseState, reference: Option<Text>, failure: Option<SafeFailureCode>)
    : (Tables, Reply)
    requires id in t.intents && id in t.attempts
  {
    if a.intent.state == state then
      if a.attempt.reference != reference || a.attempt.failure != failure then (t, Refused(OrderStateConflict))
      else (t, AggregateReply(a))
    else if a.intent.state !in {Dispatching, Reconciling} then (t, Refused(OrderStateConflict))
    else
      (SetPurchaseState(t, id, state, reference, failure),
       AggregateReply(ReplacePurchase(a, state, reference, failure)))
  }

  function TabTerminal(
    rules: TextRules, t: Tables, id: Id, state: PurchaseState, reference: Option<Text>,
    failure: Option<SafeFailureCode>): (Tables, Reply)
  {
    match Load(rules, t, id)
    case Err(e) => (t, Refused(e))
    case Ok(a) => TerminalLoaded(t, id, a, state, reference, failure)
  }

  function TabSuccess(rules: TextRules, t: Tables, id: Id, reference: Text): (Tables, Reply) {
    if reference !in rules.safe128 then (t, Refused(InvalidOrderInput))
    else TabTerminal(rules, t, id, Succeeded, Some(reference), None)
  }

  function UnknownLoaded(t: Tables, id: Id, a: Aggregate): (Tables, Reply)
    requires id in t.intents && id in t.attempts
  {
    if a.intent.state in {Unknown, Reconciling} then (t, AggregateReply(a))
    else if a.intent.state != Dispatching then (t, Refused(OrderStateConflict))
    else
      (SetPurchaseState(t, id, Unknown, None, None), AggregateReply(ReplacePurchase(a, Unknown, None, None)))
  }

  function TabUnknown(rules: TextRules, t: Tables, id: Id): (Tables, Reply) {
    match Load(rules, t, id)
    case Err(e) => (t, Refused(e))
    case Ok(a) => UnknownLoaded(t, id, a)
  }

  function BeginLoaded(t: Tables, id: Id, a: Aggregate): (Tables, Reply)
    requires id in t.intents && id in t.attempts
  {
    if a.intent.state == Unknown then
      (SetPurchaseState(t, id, Reconciling, None, None),
       ReconcileReply(ReplacePurchase(a, Reconciling, None, None), true))
    else if a.intent.state == Reconciling then (t, ReconcileReply(a, true))
    else if Terminal(a.intent.state) then (t, ReconcileReply(a, false))
    else (t, Refused(OrderStateConflict))
  }

  function TabBegin(rules: TextRules, t: Tables, id: Id): (Tables, Reply) {
    match Load(rules, t, id)
    case Err(e) => (t, Refused(e))
    case Ok(a) => BeginLoaded(t, id, a)
  }

  function CreateLoaded(t: Tables, id: Id, a: Aggregate): (Tables, Reply) {
    var number := MaxNumber(a.deliveries) + 1;
    var row := NewDelivery(id, number);
    if a.intent.state != Succeeded then (t, Refused(DeliveryNotAllowed))
    else if number > MAX_QUANTITY then (t, Refused(InvalidOrderInput))
    else if DeliveryConflicts(t.deliveries, row) then (t, Refused(IntegrityViolation))
    else (t.(deliveries := t.deliveries + [row]), DeliveryReply(row))
  }

  function TabCreateDelivery(rules: TextRules, t: Tables, id: Id): (Tables, Reply) {
    match Load(rules, t, id)
    case Err(e) => (t, Refused(e))
    case Ok(a) => CreateLoaded(t, id, a)
  }

  /** The position of the row with a given primary key, or the length when there is none. */
  function RowIndex(rows: seq<DeliveryRecord>, delivery: Id): (i: nat)
    ensures i <= |rows|
    ensures i < |rows| ==> rows[i].terms.id == delivery
    ensures forall j :: 0 <= j < i ==> rows[j].terms.id != delivery
  {
    if rows == [] then 0
    else if rows[0].terms.id == delivery then 0
    else
      assert forall j :: 0 < j < |rows| ==> rows[j] == rows[1..][j - 1];
      RowIndex(rows[1..], delivery) + 1
  }

  function TabFinish(rules: TextRules, t: Tables, delivery: Id, succeeded: bool, failure: Option<Text>)
    : (Tables, Reply)
  {
    var i := RowIndex(t.deliveries, delivery);
    if !FailureTextOk(rules, succeeded, failure) then (t, Refused(InvalidOrderInput))
    else if i == |t.deliveries| then (t, Refused(OrderNotFound))
    else
      match FinishRecord(t.deliveries[i], succeeded, failure)
      case Err(e) => (t, Refused(e))
      case Ok(d) => (t.(deliveries := t.deliveries[i := d]), DeliveryReply(d))
  }

  ghost function TabApply(rules: TextRules, t: Tables, op: Op): (Tables, Reply) {
    match op
    case Prepare(c) => TabPrepare(rules, t, c)
    case Get(id) => TabGet(rules, t, id)
    case ClaimPrepared(id) => TabClaim(rules, t, id)
    case RecordSuccess(id, reference) => TabSuccess(rules, t, id, reference)
    case RecordSafeFailure(id, code) => TabTerminal(rules, t, id, FailedSafe, None, Some(code))
    case RecordUnknown(id) => TabUnknown(rules, t, id)
    case BeginReconciliation(id) => TabBegin(rules, t, id)
    case CreateDelivery(id) => TabCreateDelivery(rules, t, id)
    case FinishDelivery(d, succeeded, failure) => TabFinish(rules, t, d, succeeded, failure)
  }

  // ---------------------------------------------------------------------------------------------
  // Queries

  lemma {:induction false} SelectConcat(a: seq<DeliveryRecord>, b: seq<DeliveryRecord>, order: Id)
    ensures Select(a + b, order) == Select(a, order) + Select(b, order)
  {
    if b == [] {
      assert a + b == a;
    } else {
      SelectConcat(a, b[..|b| - 1], order);
      assert (a + b)[..|a + b| - 1] == a + b[..|b| - 1];
    }
  }

  /** Rewriting one row in place rewrites exactly that row of its order's selection. */
  lemma SelectUpdate(rows: seq<DeliveryRecord>, i: nat, d: DeliveryRecord, order: Id)
    requires i < |rows| && d.terms.orderId == rows[i].terms.orderId
    ensures var p := |Select(rows[..i], order)|;
      if d.terms.orderId == order then
        p < |Select(rows, order)| && Select(rows, order)[p] == rows[i] &&
        Select(rows[i := d], order) == Select(rows, order)[p := d]
      else Select(rows[i := d], order) == Select(rows, order)
  {
    var before, after := rows[..i], rows[i + 1..];
    assert rows == before + [rows[i]] + after;
    assert rows[i := d] == before + [d] + after;
    SelectConcat(before + [rows[i]], after, order);
    SelectConcat(before, [rows[i]], order);
    SelectConcat(before + [d], after, order);
    SelectConcat(before, [d], order);
  }

  lemma {:induction false} SelectedRowsExist(rows: seq<DeliveryRecord>, order: Id, p: nat)
    requires p < |Select(rows, order)|
    ensures Select(rows, order)[p].terms.orderId == order
    ensures exists i :: 0 <= i < |rows| && rows[i] == Select(rows, order)[p]
  {
    var front := rows[..|rows| - 1];
    if p < |Select(front, order)| {
      SelectedRowsExist(front, order, p);
      var i :| 0 <= i < |front| && front[i] == Select(front, order)[p];
      assert rows[i] == front[i];
    } else {
      assert rows[|rows| - 1] == Select(rows, order)[p];
    }
  }

  lemma RowsAreSelected(rows: seq<DeliveryRecord>, i: nat)
    requires i < |rows|
    ensures exists p :: 0 <= p < |Select(rows, rows[i].terms.orderId)| && Select(rows, rows[i].terms.orderId)[p] == rows[i]
  {
    SelectUpdate(rows, i, rows[i], rows[i].terms.orderId);
  }

  /** Rows that already ascend are returned as they are. */
  lemma {:induction false} OrderOfAscending(rows: seq<DeliveryRecord>)
    requires forall i, j :: 0 <= i < j < |rows| ==> rows[i].terms.number < rows[j].terms.number
    ensures OrderByNumber(rows) == rows
  {
    if rows != [] {
      OrderOfAscending(rows[..|rows| - 1]);
      assert rows == rows[..|rows| - 1] + [rows[|rows| - 1]];
    }
  }

  // ---------------------------------------------------------------------------------------------
  // The refinement relation

  /** The tables hold exactly the orders of the map, column by column. */
  ghost predicate Linked(rules: TextRules, t: Tables, m: MemStore) {
    && (forall id :: id in t.intents <==> id in m.byId)
    && (forall id :: id in t.attempts <==> id in m.byId)
    && (forall id :: id in m.byId ==> Encodes(rules, t, id, m.byId[id]))
    && (forall i :: 0 <= i < |t.deliveries| ==> t.deliveries[i].terms.orderId in m.byId)
  }

  ghost predicate Encodes(rules: TextRules, t: Tables, id: Id, a: Aggregate) {
    && id in t.intents && t.intents[id] == IntentRow(ColumnsOf(a.intent.terms), a.intent.state)
    && id in t.attempts && t.attempts[id] == a.attempt
    && Select(t.deliveries, id) == a.deliveries
    && ValidPayload(rules, a.attempt.terms.payload)
  }

  /** The refinement relation: a reachable map, and tables that hold exactly its orders. */
  ghost predicate Represents(rules: TextRules, t: Tables, m: MemStore) {
    MemInv(m) && Linked(rules, t, m)
  }

  /** Equal replies, or two refusals. */
  ghost predicate Agree(r: Reply, s: Reply) {
    r == s || (r.Refused? && s.Refused?)
  }

  ghost predicate CallOk(rules: TextRules, op: Op) {
    op.Prepare? ==> Admissible(op.candidate) && ValidPayload(rules, op.candidate.attempt.terms.payload)
  }

  /** Under the join, an encoded order is read back as it is. The single currency column loses
      nothing because a stored order has one currency, and terminal metadata is where it should be. */
  lemma LoadDecodes(rules: TextRules, t: Tables, id: Id, a: Aggregate)
    requires Stored(id, a) && Encodes(rules, t, id, a)
    ensures Load(rules, t, id) == Ok(a)
  {
    OrderOfAscending(a.deliveries);
  }

  /** The tables answer every read as the map does. */
  lemma LoadAgrees(rules: TextRules, t: Tables, m: MemStore, id: Id)
    requires Linked(rules, t, m) && (id in m.byId ==> Stored(id, m.byId[id]))
    ensures Load(rules, t, id) == if id in m.byId then Ok(m.byId[id]) else Err(OrderNotFound)
  {
    if id in m.byId {
      LoadDecodes(rules, t, id, m.byId[id]);
    }
  }

  // ---------------------------------------------------------------------------------------------
  // prepare

  /** The unique constraints hold of every reachable set of tables. */
  lemma ConstraintsHold(rules: TextRules, t: Tables, m: MemStore)
    requires Represents(rules, t, m)
    ensures Constraints(t)
  {
    forall id | id in t.intents ensures t.intents[id].columns.id == id && id == IntentUuid(t.intents[id].columns.key) {
      assert Stored(id, m.byId[id]) && Encodes(rules, t, id, m.byId[id]);
    }
  }

  lemma KeyRow(rules: TextRules, t: Tables, m: MemStore, id: Id)
    requires Linked(rules, t, m) && id in m.byId && Stored(id, m.byId[id])
    ensures id in t.intents && id == IntentUuid(t.intents[id].columns.key)
  {
    assert Encodes(rules, t, id, m.byId[id]);
  }

  lemma KeysAgree(rules: TextRules, t: Tables, m: MemStore, key: Text)
    requires Represents(rules, t, m)
    ensures KeyTaken(t, key) <==> key in m.idByKey
    ensures KeyTaken(t, key) ==> KeyHolder(t, key) == m.idByKey[key]
  {
    if KeyTaken(t, key) {
      KeyRow(rules, t, m, KeyHolder(t, key));
    }
    if key in m.idByKey {
      KeyRow(rules, t, m, IntentUuid(key));
    }
  }

  lemma {:induction false} SelectNone(rows: seq<DeliveryRecord>, order: Id)
    requires forall i :: 0 <= i < |rows| ==> rows[i].terms.orderId != order
    ensures Select(rows, order) == []
  {
    if rows != [] {
      SelectNone(rows[..|rows| - 1], order);
    }
  }

  lemma AttemptRow(rules: TextRules, t: Tables, m: MemStore, id: Id)
    requires Linked(rules, t, m) && id in m.byId && Stored(id, m.byId[id])
    ensures id in t.attempts && t.attempts[id].terms.id == AttemptUuid(id) && t.attempts[id].terms.requestKey == PurchaseKey(id)
  {
    assert Encodes(rules, t, id, m.byId[id]);
  }

  lemma FreshAttempt(rules: TextRules, t: Tables, m: MemStore, c: Aggregate)
    requires Represents(rules, t, m) && c.intent.terms.id !in m.byId
    requires c.attempt.terms.orderId == c.intent.terms.id && c.attempt.terms.id == AttemptUuid(c.intent.terms.id)
    requires c.attempt.terms.requestKey == PurchaseKey(c.intent.terms.id)
    ensures !AttemptConflicts(t.attempts, c.attempt)
  {
    forall id | id in t.attempts ensures t.attempts[id].terms.id != c.attempt.terms.id && t.attempts[id].terms.requestKey != c.attempt.terms.requestKey {
      AttemptRow(rules, t, m, id);
    }
  }

  lemma PrepareAgainRefines(rules: TextRules, t: Tables, m: MemStore, c: Aggregate)
    requires Linked(rules, t, m) && Admissible(c) && ValidPayload(rules, c.attempt.terms.payload)
    requires KeyTaken(t, c.intent.terms.key) && c.intent.terms.key in m.idByKey
    requires KeyHolder(t, c.intent.terms.key) == m.idByKey[c.intent.terms.key] && m.idByKey[c.intent.terms.key] in m.byId
    requires Stored(m.idByKey[c.intent.terms.key], m.byId[m.idByKey[c.intent.terms.key]])
    ensures TabPrepare(rules, t, c).0 == t && MemPrepare(m, c).0 == m
    ensures TabPrepare(rules, t, c).1 == MemPrepare(m, c).1
  {
    LoadAgrees(rules, t, m, m.idByKey[c.intent.terms.key]);
  }

  lemma StillEncoded(rules: TextRules, t: Tables, t': Tables, id: Id, a: Aggregate)
    requires Encodes(rules, t, id, a)
    requires id in t'.intents && t'.intents[id] == t.intents[id] && id in t'.attempts && t'.attempts[id] == t.attempts[id]
    requires Select(t'.deliveries, id) == Select(t.deliveries, id)
    ensures Encodes(rules, t', id, a)
  {
    hide Select, ValidPayload;
  }

  /** One order changes, with its own rows: the others stay encoded. */
  lemma OneOrderLinked(rules: TextRules, t: Tables, m: MemStore, t': Tables, m': MemStore, id: Id)
    requires Linked(rules, t, m)
    requires id in m'.byId && m'.byId == m.byId[id := m'.byId[id]]
    requires id in t'.intents && t'.intents == t.intents[id := t'.intents[id]]
    requires id in t'.attempts && t'.attempts == t.attempts[id := t'.attempts[id]]
    requires forall x :: x in m.byId && x != id ==> Select(t'.deliveries, x) == Select(t.deliveries, x)
    requires forall i :: 0 <= i < |t'.deliveries| ==> t'.deliveries[i].terms.orderId in m'.byId
    requires Encodes(rules, t', id, m'.byId[id])
    ensures Linked(rules, t', m')
  {
    hide Select, Encodes;
    forall x | x in m.byId && x != id ensures Encodes(rules, t', x, m'.byId[x]) {
      StillEncoded(rules, t, t', x, m.byId[x]);
    }
  }

  lemma InsertedRows(t: Tables, c: Aggregate)
    requires Admissible(c)
    ensures Insert(t, c) == t.(intents := t.intents[c.intent.terms.id := IntentRow(ColumnsOf(c.intent.terms), c.intent.state)],
                               attempts := t.attempts[c.intent.terms.id := c.attempt])
    ensures c.deliveries == []
  {
  }

  lemma InsertRefines(rules: TextRules, t: Tables, m: MemStore, c: Aggregate)
    requires Linked(rules, t, m) && Admissible(c) && ValidPayload(rules, c.attempt.terms.payload)
    requires c.intent.terms.id !in m.byId
    ensures Linked(rules, Insert(t, c),
                   MemStore(m.byId[c.intent.terms.id := c], m.idByKey[c.intent.terms.key := c.intent.terms.id]))
  {
    InsertedRows(t, c);
    hide Select, ValidPayload, Admissible, Insert;
    var id, t' := c.intent.terms.id, Insert(t, c);
    SelectNone(t.deliveries, id);
    assert Encodes(rules, t', id, c);
    OneOrderLinked(rules, t, m, t', MemStore(m.byId[id := c], m.idByKey[c.intent.terms.key := id]), id);
  }

  lemma PrepareFirstRefines(rules: TextRules, t: Tables, m: MemStore, c: Aggregate)
    requires Linked(rules, t, m) && Admissible(c) && ValidPayload(rules, c.attempt.terms.payload)
    requires !KeyTaken(t, c.intent.terms.key) && c.intent.terms.key !in m.idByKey && c.intent.terms.id !in m.byId
    requires !AttemptConflicts(t.attempts, c.attempt)
    ensures Linked(rules, TabPrepare(rules, t, c).0, MemPrepare(m, c).0)
    ensures TabPrepare(rules, t, c).1 == MemPrepare(m, c).1
  {
    InsertRefines(rules, t, m, c);
  }

  lemma PrepareRefines(rules: TextRules, t: Tables, m: MemStore, c: Aggregate)
    requires Represents(rules, t, m) && Admissible(c) && ValidPayload(rules, c.attempt.terms.payload)
    ensures Linked(rules, TabPrepare(rules, t, c).0, MemPrepare(m, c).0)
    ensures TabPrepare(rules, t, c).1 == MemPrepare(m, c).1
  {
    KeysAgree(rules, t, m, c.intent.terms.key);
    if KeyTaken(t, c.intent.terms.key) {
      PrepareAgainRefines(rules, t, m, c);
    } else {
      FreshAttempt(rules, t, m, c);
      PrepareFirstRefines(rules, t, m, c);
    }
  }

  // ---------------------------------------------------------------------------------------------
  // Purchase transitions

  /** One order moved the same way in both stores. */
  lemma MoveRefines(
    rules: TextRules, t: Tables, m: MemStore, id: Id, state: PurchaseState, reference: Option<Text>,
    failure: Option<SafeFailureCode>)
    requires Linked(rules, t, m) && id in m.byId
    ensures id in t.intents && id in t.attempts
    ensures Linked(rules, SetPurchaseState(t, id, state, reference, failure),
                   Put(m, id, ReplacePurchase(m.byId[id], state, reference, failure)))
  {
    hide Select, ValidPayload;
    assert Encodes(rules, t, id, m.byId[id]);
    var t' := SetPurchaseState(t, id, state, reference, failure);
    var m' := Put(m, id, ReplacePurchase(m.byId[id], state, reference, failure));
    assert Encodes(rules, t', id, m'.byId[id]);
    OneOrderLinked(rules, t, m, t', m', id);
  }

  lemma ClaimRefines(rules: TextRules, t: Tables, m: MemStore, id: Id)
    requires Linked(rules, t, m) && id in m.byId && Stored(id, m.byId[id])
    ensures id in t.intents && id in t.attempts
    ensures Linked(rules, ClaimLoaded(t, id, m.byId[id]).0, MemClaim(m, id).0)
    ensures ClaimLoaded(t, id, m.byId[id]).1 == MemClaim(m, id).1
  {
    assert Encodes(rules, t, id, m.byId[id]);
    MoveRefines(rules, t, m, id, Dispatching, None, None);
  }

  /** Recording a terminal answer. The tables compare both metadata columns of a repeated record, the
      map only the one of its state; they agree because the other one is empty in that state. */
  lemma SuccessRefines(rules: TextRules, t: Tables, m: MemStore, id: Id, reference: Text)
    requires Linked(rules, t, m) && id in m.byId && Stored(id, m.byId[id]) && reference in rules.safe128
    ensures id in t.intents && id in t.attempts
    ensures Linked(rules, TerminalLoaded(t, id, m.byId[id], Succeeded, Some(reference), None).0,
                   MemSuccess(rules, m, id, reference).0)
    ensures TerminalLoaded(t, id, m.byId[id], Succeeded, Some(reference), None).1 == MemSuccess(rules, m, id, reference).1
  {
    hide Linked, Encodes;
    MoveRefines(rules, t, m, id, Succeeded, Some(reference), None);
  }

  lemma SafeFailureRefines(rules: TextRules, t: Tables, m: MemStore, id: Id, code: SafeFailureCode)
    requires Linked(rules, t, m) && id in m.byId && Stored(id, m.byId[id])
    ensures id in t.intents && id in t.attempts
    ensures Linked(rules, TerminalLoaded(t, id, m.byId[id], FailedSafe, None, Some(code)).0, MemSafeFailure(m, id, code).0)
    ensures TerminalLoaded(t, id, m.byId[id], FailedSafe, None, Some(code)).1 == MemSafeFailure(m, id, code).1
  {
    hide Linked, Encodes;
    MoveRefines(rules, t, m, id, FailedSafe, None, Some(code));
  }

  lemma UnknownRefines(rules: TextRules, t: Tables, m: MemStore, id: Id)
    requires Linked(rules, t, m) && id in m.byId
    ensures id in t.intents && id in t.attempts
    ensures Linked(rules, UnknownLoaded(t, id, m.byId[id]).0, MemUnknown(m, id).0)
    ensures UnknownLoaded(t, id, m.byId[id]).1 == MemUnknown(m, id).1
  {
    hide Linked, Encodes;
    MoveRefines(rules, t, m, id, Unknown, None, None);
  }

  lemma BeginRefines(rules: TextRules, t: Tables, m: MemStore, id: Id)
    requires Linked(rules, t, m) && id in m.byId
    ensures id in t.intents && id in t.attempts
    ensures Linked(rules, BeginLoaded(t, id, m.byId[id]).0, MemBegin(m, id).0)
    ensures BeginLoaded(t, id, m.byId[id]).1 == MemBegin(m, id).1
  {
    hide Linked, Encodes;
    MoveRefines(rules, t, m, id, Reconciling, None, None);
  }

  // ---------------------------------------------------------------------------------------------
  // Delivery

  /** A row belongs to a known order, and its identities are the derived ones. */
  lemma RowShape(rules: TextRules, t: Tables, m: MemStore, i: nat)
    requires Linked(rules, t, m) && i < |t.deliveries|
    requires Stored(t.deliveries[i].terms.orderId, m.byId[t.deliveries[i].terms.orderId])
    ensures var d := t.deliveries[i];
      && 1 <= d.terms.number <= |m.byId[d.terms.orderId].deliveries|
      && m.byId[d.terms.orderId].deliveries[d.terms.number - 1] == d
      && d.terms.id == DeliveryUuid(d.terms.orderId, d.terms.number)
      && d.terms.key == DeliveryKey(d.terms.orderId, d.terms.number)
  {
    RowsAreSelected(t.deliveries, i);
    assert Encodes(rules, t, t.deliveries[i].terms.orderId, m.byId[t.deliveries[i].terms.orderId]);
  }

  lemma FreshDelivery(rules: TextRules, t: Tables, m: MemStore, id: Id)
    requires Represents(rules, t, m) && id in m.byId
    ensures !DeliveryConflicts(t.deliveries, NewDelivery(id, |m.byId[id].deliveries| + 1))
  {
    var row := NewDelivery(id, |m.byId[id].deliveries| + 1);
    forall i | 0 <= i < |t.deliveries|
      ensures t.deliveries[i].terms.id != row.terms.id && t.deliveries[i].terms.key != row.terms.key
      ensures t.deliveries[i].terms.orderId == row.terms.orderId ==> t.deliveries[i].terms.number != row.terms.number
    {
      hide Represents;
      RowShape(rules, t, m, i);
    }
  }

  lemma SelectOne(row: DeliveryRecord, order: Id)
    ensures Select([row], order) == if row.terms.orderId == order then [row] else []
  {
    assert [row][..0] == [];
  }

  lemma AppendRefines(rules: TextRules, t: Tables, m: MemStore, id: Id, row: DeliveryRecord)
    requires Linked(rules, t, m) && id in m.byId && row.terms.orderId == id
    ensures Linked(rules, t.(deliveries := t.deliveries + [row]),
                   Put(m, id, m.byId[id].(deliveries := m.byId[id].deliveries + [row])))
  {
    hide Select, ValidPayload;
    var t' := t.(deliveries := t.deliveries + [row]);
    var m' := Put(m, id, m.byId[id].(deliveries := m.byId[id].deliveries + [row]));
    forall x ensures Select(t'.deliveries, x) == Select(t.deliveries, x) + if x == id then [row] else [] {
      SelectConcat(t.deliveries, [row], x);
      SelectOne(row, x);
    }
    assert Encodes(rules, t, id, m.byId[id]);
    assert t'.intents == t.intents[id := t.intents[id]] && t'.attempts == t.attempts[id := t.attempts[id]];
    OneOrderLinked(rules, t, m, t', m', id);
  }

  lemma CreateRefines(rules: TextRules, t: Tables, m: MemStore, id: Id)
    requires Linked(rules, t, m) && id in m.byId && MaxNumber(m.byId[id].deliveries) == |m.byId[id].deliveries|
    requires !DeliveryConflicts(t.deliveries, NewDelivery(id, |m.byId[id].deliveries| + 1))
    ensures Linked(rules, CreateLoaded(t, id, m.byId[id]).0, MemCreateDelivery(m, id).0)
    ensures CreateLoaded(t, id, m.byId[id]).1 == MemCreateDelivery(m, id).1
  {
    hide Linked, Encodes;
    AppendRefines(rules, t, m, id, NewDelivery(id, |m.byId[id].deliveries| + 1));
  }

  /** A stored attempt is found in the row with its id. */
  lemma AttemptHasRow(rules: TextRules, t: Tables, m: MemStore, delivery: Id, id: Id, index: nat)
    requires Linked(rules, t, m) && At(m, delivery, id, index)
    ensures RowIndex(t.deliveries, delivery) < |t.deliveries|
  {
    assert Encodes(rules, t, id, m.byId[id]);
    SelectedRowsExist(t.deliveries, id, index);
  }

  lemma PresenceAgrees(rules: TextRules, t: Tables, m: MemStore, delivery: Id)
    requires Represents(rules, t, m)
    ensures Present(m, delivery) <==> RowIndex(t.deliveries, delivery) < |t.deliveries|
    ensures Present(m, delivery) ==>
      var row := t.deliveries[RowIndex(t.deliveries, delivery)];
      1 <= row.terms.number && Locate(m, delivery) == (row.terms.orderId, row.terms.number - 1) && At(m, delivery, row.terms.orderId, row.terms.number - 1)
  {
    hide Encodes, Stored;
    if Present(m, delivery) {
      var place := Locate(m, delivery);
      AttemptHasRow(rules, t, m, delivery, place.0, place.1);
    }
    var i := RowIndex(t.deliveries, delivery);
    if i < |t.deliveries| {
      var d := t.deliveries[i];
      RowShape(rules, t, m, i);
      assert At(m, delivery, d.terms.orderId, d.terms.number - 1);
      var place := Locate(m, delivery);
      UniqueDelivery(m, delivery, place.0, place.1, d.terms.orderId, d.terms.number - 1);
    }
  }

  /** Rewriting a row rewrites the attempt at the same number. */
  lemma RewriteRefines(rules: TextRules, t: Tables, m: MemStore, i: nat, d: DeliveryRecord)
    requires Linked(rules, t, m) && i < |t.deliveries| && d.terms.orderId == t.deliveries[i].terms.orderId
    requires Stored(d.terms.orderId, m.byId[d.terms.orderId])
    ensures var id, index := d.terms.orderId, t.deliveries[i].terms.number - 1;
      && 0 <= index < |m.byId[id].deliveries|
      && Linked(rules, t.(deliveries := t.deliveries[i := d]),
                Put(m, id, m.byId[id].(deliveries := m.byId[id].deliveries[index := d])))
  {
    hide Select, ValidPayload;
    var id, index := d.terms.orderId, t.deliveries[i].terms.number - 1;
    RowShape(rules, t, m, i);
    var t' := t.(deliveries := t.deliveries[i := d]);
    var m' := Put(m, id, m.byId[id].(deliveries := m.byId[id].deliveries[index := d]));
    SelectUpdate(t.deliveries, i, d, id);
    assert |Select(t.deliveries[..i], id)| == index by {
      assert Encodes(rules, t, id, m.byId[id]);
      assert m.byId[id].deliveries[|Select(t.deliveries[..i], id)|].terms.number == |Select(t.deliveries[..i], id)| + 1;
    }
    RewrittenRows(rules, t, m, i, d);
    assert t'.intents == t.intents[id := t.intents[id]] && t'.attempts == t.attempts[id := t.attempts[id]];
    OneOrderLinked(rules, t, m, t', m', id);
  }

  lemma RewrittenRows(rules: TextRules, t: Tables, m: MemStore, i: nat, d: DeliveryRecord)
    requires Linked(rules, t, m) && i < |t.deliveries| && d.terms.orderId == t.deliveries[i].terms.orderId
    ensures forall x :: x in m.byId && x != d.terms.orderId ==> Select(t.deliveries[i := d], x) == Select(t.deliveries, x)
  {
    hide Select, Linked;
    forall x | x in m.byId && x != d.terms.orderId ensures Select(t.deliveries[i := d], x) == Select(t.deliveries, x) {
      SelectUpdate(t.deliveries, i, d, x);
    }
  }

  lemma FinishRefines(rules: TextRules, t: Tables, m: MemStore, delivery: Id, succeeded: bool, failure: Option<Text>)
    requires Linked(rules, t, m)
    requires Present(m, delivery) && FailureTextOk(rules, succeeded, failure)
    requires var i := RowIndex(t.deliveries, delivery);
      && i < |t.deliveries| && 1 <= t.deliveries[i].terms.number
      && Locate(m, delivery) == (t.deliveries[i].terms.orderId, t.deliveries[i].terms.number - 1)
      && Stored(t.deliveries[i].terms.orderId, m.byId[t.deliveries[i].terms.orderId])
    ensures Linked(rules, TabFinish(rules, t, delivery, succeeded, failure).0,
                   MemFinish(rules, m, delivery, succeeded, failure).0)
    ensures TabFinish(rules, t, delivery, succeeded, failure).1 == MemFinish(rules, m, delivery, succeeded, failure).1
  {
    hide Linked, Encodes, Stored;
    var i := RowIndex(t.deliveries, delivery);
    var row := t.deliveries[i];
    RowShape(rules, t, m, i);
    if FinishRecord(row, succeeded, failure).Ok? {
      RewriteRefines(rules, t, m, i, FinishRecord(row, succeeded, failure).value);
    }
  }

  // ---------------------------------------------------------------------------------------------
  // The main theorems

  lemma OrderIsStored(m: MemStore, id: Id)
    requires MemInv(m) && id in m.byId
    ensures Stored(id, m.byId[id])
  {
  }

  /** Every call on one order: the tables load what the map holds, and then do the same with it. */
  lemma OrderCallRefines(rules: TextRules, t: Tables, m: MemStore, op: Op)
    requires Represents(rules, t, m) && !op.Prepare? && !op.FinishDelivery?
    ensures Linked(rules, TabApply(rules, t, op).0, MemApply(rules, m, op).0)
    ensures TabApply(rules, t, op).1 == MemApply(rules, m, op).1
  {
    hide Linked, Encodes, Stored;
    var id := op.id;
    if id in m.byId {
      OrderIsStored(m, id);
    }
    LoadAgrees(rules, t, m, id);
    if id in m.byId {
      if op.ClaimPrepared? {
        ClaimRefines(rules, t, m, id);
      } else if op.RecordSuccess? {
        if op.reference in rules.safe128 {
          SuccessRefines(rules, t, m, id, op.reference);
        }
      } else if op.RecordSafeFailure? {
        SafeFailureRefines(rules, t, m, id, op.code);
      } else if op.RecordUnknown? {
        UnknownRefines(rules, t, m, id);
      } else if op.BeginReconciliation? {
        BeginRefines(rules, t, m, id);
      } else if op.CreateDelivery? {
        MaxOfNumbered(id, m.byId[id].deliveries);
        FreshDelivery(rules, t, m, id);
        CreateRefines(rules, t, m, id);
      }
    }
  }

  /** The two forms stay linked under every call, and refuse with the same error except that the
      tables check the failure text before they look for the attempt, and the map looks first. */
  lemma LinkIsKept(rules: TextRules, t: Tables, m: MemStore, op: Op)
    requires Represents(rules, t, m) && CallOk(rules, op)
    ensures Linked(rules, TabApply(rules, t, op).0, MemApply(rules, m, op).0)
    ensures Agree(TabApply(rules, t, op).1, MemApply(rules, m, op).1)
    ensures TabApply(rules, t, op).1 == MemApply(rules, m, op).1 <==>
            (op.FinishDelivery? ==> Present(m, op.delivery) || FailureTextOk(rules, op.succeeded, op.failure))
  {
    hide Linked, Load, Stored;
    if op.Prepare? {
      PrepareRefines(rules, t, m, op.candidate);
    } else if op.FinishDelivery? {
      PresenceAgrees(rules, t, m, op.delivery);
      if Present(m, op.delivery) && FailureTextOk(rules, op.succeeded, op.failure) {
        OrderIsStored(m, Locate(m, op.delivery).0);
        FinishRefines(rules, t, m, op.delivery, op.succeeded, op.failure);
      }
    } else {
      OrderCallRefines(rules, t, m, op);
    }
  }

  /** The three tables refine the map: related stores stay related under every repository call,
      and both accept with the same answer or both refuse. */
  lemma TablesRefineMemory(rules: TextRules, t: Tables, m: MemStore, op: Op)
    requires Represents(rules, t, m) && CallOk(rules, op)
    ensures Represents(rules, TabApply(rules, t, op).0, MemApply(rules, m, op).0)
    ensures Agree(TabApply(rules, t, op).1, MemApply(rules, m, op).1)
  {
    LinkIsKept(rules, t, m, op);
    MemKeepsInv(rules, m, op);
  }

  /** Why `place_order` must check the currencies first: a consistent, accepted candidate is read
      back as it was exactly when its price and its cap share one currency. */
  lemma OneCurrencyColumn(rules: TextRules, t: Tables, c: Aggregate)
    requires Consistent(c) && c.intent.state == Prepared && c.deliveries == []
    requires c.attempt.reference.None? && c.attempt.failure.None?
    requires ValidMoney(rules, c.intent.terms.unitPrice) && ValidMoney(rules, c.intent.terms.maxUnitPrice)
    requires ValidPayload(rules, c.attempt.terms.payload)
    requires TabPrepare(rules, t, c).1 == PrepareReply(c, true)
    requires forall i :: 0 <= i < |t.deliveries| ==> t.deliveries[i].terms.orderId != c.intent.terms.id
    requires !KeyTaken(t, c.intent.terms.key)
    ensures Load(rules, TabPrepare(rules, t, c).0, c.intent.terms.id) == Ok(c)
            <==> c.intent.terms.unitPrice.currency == c.intent.terms.maxUnitPrice.currency
  {
    SelectNone(t.deliveries, c.intent.terms.id);
  }

  /** The PostgreSQL repository: each method is one transaction over the tables. */
  class PostgresOrderRepository {
    var intents: map<Id, IntentRow>
    var attempts: map<Id, AttemptRecord>
    var deliveries: seq<DeliveryRecord>

    ghost function Rows(): Tables reads this { Tables(intents, attempts, deliveries) }

    constructor ()
      ensures Rows() == EMPTY_TABLES
    {
      intents, attempts, deliveries := map[], map[], [];
    }

    method Prepare(rules: TextRules, candidate: Aggregate) returns (reply: Reply)
      requires Constraints(Rows())
      modifies this
      ensures (Rows(), reply) == TabPrepare(rules, old(Rows()), candidate)
    {
      if !Consistent(candidate) {
        return Refused(PersistenceInvariant);
      }
      var row := IntentRow(ColumnsOf(candidate.intent.terms), Prepared);
      if !RowChecks(rules, row.columns) {
        return Refused(IntegrityViolation);
      }
      if exists id :: id in intents && intents[id].columns.key == row.columns.key {
        var id :| id in intents && intents[id].columns.key == row.columns.key;
        assert id == KeyHolder(Rows(), row.columns.key);
        match Load(rules, Tables(intents, attempts, deliveries), id) {
          case Err(e) => return Refused(e);
          case Ok(existing) =>
            if !SameRequest(existing, candidate) {
              return Refused(IdempotencyConflict);
            }
            return PrepareReply(existing, false);
        }
      }
      if row.columns.id in intents || AttemptConflicts(attempts, candidate.attempt) {
        return Refused(IntegrityViolation);
      }
      intents := intents[row.columns.id := row];
      attempts := attempts[candidate.attempt.terms.orderId := PreparedAttempt(candidate.attempt)];
      return PrepareReply(candidate, true);
    }

    method Get(rules: TextRules, id: Id) returns (reply: Reply)
      ensures (Rows(), reply) == TabGet(rules, Rows(), id)
    {
      match Load(rules, Tables(intents, attempts, deliveries), id)
      case Err(e) => return Refused(e);
      case Ok(aggregate) => return AggregateReply(aggregate);
    }

    method ClaimPrepared(rules: TextRules, id: Id) returns (reply: Reply)
      modifies this
      ensures (Rows(), reply) == TabClaim(rules, old(Rows()), id)
    {
      match Load(rules, Tables(intents, attempts, deliveries), id)
      case Err(e) => return Refused(e);
      case Ok(aggregate) =>
        if aggregate.intent.state != Prepared {
          return NotClaimed;
        }
        intents := intents[id := intents[id].(state := Dispatching)];
        attempts := attempts[id := attempts[id].(status := Dispatching)];
        return AggregateReply(ReplacePurchase(aggregate, Dispatching, None, None));
    }

    method SetState(id: Id, state: PurchaseState, reference: Option<Text>, failure: Option<SafeFailureCode>)
      requires id in intents && id in attempts
      modifies this
      ensures Rows() == SetPurchaseState(old(Rows()), id, state, reference, failure)
    {
      intents := intents[id := intents[id].(state := state)];
      attempts := attempts[id := attempts[id].(status := state, reference := reference, failure := failure)];
    }

    method RecordTerminal(
      rules: TextRules, id: Id, state: PurchaseState, reference: Option<Text>, failure: Option<SafeFailureCode>)
      returns (reply: Reply)
      modifies this
      ensures (Rows(), reply) == TabTerminal(rules, old(Rows()), id, state, reference, failure)
    {
      match Load(rules, Tables(intents, attempts, deliveries), id)
      case Err(e) => return Refused(e);
      case Ok(aggregate) =>
        var current := aggregate.intent.state;
        if current == state {
          if aggregate.attempt.reference != reference || aggregate.attempt.failure != failure {
            return Refused(OrderStateConflict);
          }
          return AggregateReply(aggregate);
        }
        if current !in {Dispatching, Reconciling} {
          return Refused(OrderStateConflict);
        }
        SetState(id, state, reference, failure);
        return AggregateReply(ReplacePurchase(aggregate, state, reference, failure));
    }

    method RecordSuccess(rules: TextRules, id: Id, reference: Text) returns (reply: Reply)
      modifies this
      ensures (Rows(), reply) == TabSuccess(rules, old(Rows()), id, reference)
    {
      if reference !in rules.safe128 {
        return Refused(InvalidOrderInput);
      }
      reply := RecordTerminal(rules, id, Succeeded, Some(reference), None);
    }

    method RecordSafeFailure(rules: TextRules, id: Id, code: SafeFailureCode) returns (reply: Reply)
      modifies this
      ensures (Rows(), reply) == TabApply(rules, old(Rows()), Op.RecordSafeFailure(id, code))
    {
      reply := RecordTerminal(rules, id, FailedSafe, None, Some(code));
    }

    method RecordUnknown(rules: TextRules, id: Id) returns (reply: Reply)
      modifies this
      ensures (Rows(), reply) == TabUnknown(rules, old(Rows()), id)
    {
      match Load(rules, Tables(intents, attempts, deliveries), id)
      case Err(e) => return Refused(e);
      case Ok(aggregate) =>
        if aggregate.intent.state in {Unknown, Reconciling} {
          return AggregateReply(aggregate);
        }
        if aggregate.intent.state != Dispatching {
          return Refused(OrderStateConflict);
        }
        SetState(id, Unknown, None, None);
        return AggregateReply(ReplacePurchase(aggregate, Unknown, None, None));
    }

    method BeginReconciliation(rules: TextRules, id: Id) returns (reply: Reply)
      modifies this
      ensures (Rows(), reply) == TabBegin(rules, old(Rows()), id)
    {
      match Load(rules, Tables(intents, attempts, deliveries), id)
      case Err(e) => return Refused(e);
      case Ok(aggregate) =>
        if aggregate.intent.state == Unknown {
          SetState(id, Reconciling, None, None);
          return ReconcileReply(ReplacePurchase(aggregate, Reconciling, None, None), true);
        }
        if aggregate.intent.state == Reconciling {
          return ReconcileReply(aggregate, true);
        }
        if Terminal(aggregate.intent.state) {
          return ReconcileReply(aggregate, false);
        }
        return Refused(OrderStateConflict);
    }

    method CreateDeliveryAttempt(rules: TextRules, id: Id) returns (reply: Reply)
      modifies this
      ensures (Rows(), reply) == TabCreateDelivery(rules, old(Rows()), id)
    {
      match Load(rules, Tables(intents, attempts, deliveries), id)
      case Err(e) => return Refused(e);
      case Ok(aggregate) =>
        if aggregate.intent.state != Succeeded {
          return Refused(DeliveryNotAllowed);
        }
        var number := MaxNumber(aggregate.deliveries) + 1;
        if number > MAX_QUANTITY {
          return Refused(InvalidOrderInput);
        }
        var row := NewDelivery(id, number);
        if DeliveryConflicts(deliveries, row) {
          return Refused(IntegrityViolation);
        }
        deliveries := deliveries + [row];
        return DeliveryReply(row);
    }

    method FinishDelivery(rules: TextRules, delivery: Id, succeeded: bool, failure: Option<Text>)
      returns (reply: Reply)
      modifies this
      ensures (Rows(), reply) == TabFinish(rules, old(Rows()), delivery, succeeded, failure)
    {
      if !FailureTextOk(rules, succeeded, failure) {
        return Refused(InvalidOrderInput);
      }
      var i := RowIndex(deliveries, delivery);
      if i == |deliveries| {
        return Refused(OrderNotFound);
      }
      var attempt := deliveries[i];
      var target, expected := FinishedStatus(succeeded), FinishedFailure(succeeded, failure);
      if attempt.status != Pending {
        if attempt.status == target && attempt.failure == expected {
          assert deliveries[i := attempt] == deliveries;
          return DeliveryReply(attempt);
        }
        return Refused(OrderStateConflict);
      }
      var updated := attempt.(status := target, failure := expected);
      deliveries := deliveries[i := updated];
      return DeliveryReply(updated);
    }
  }
}
