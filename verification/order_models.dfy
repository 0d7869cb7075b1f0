/** Order records, derived identities and the aggregate checks of `orders/models.py`. */
module OrderModels {
  import opened Common

  const MAX_DATABASE_INTEGER := 0x7FFF_FFFF_FFFF_FFFF
  const MAX_QUANTITY := 0x7FFF_FFFF

  datatype PurchaseState = Prepared | Dispatching | Succeeded | FailedSafe | Unknown | Reconciling

  datatype DeliveryState = Pending | Delivered | Undelivered

  datatype SafeFailureCode = PriceChanged | OutOfStock | InsufficientBalance

  datatype OrderError =
    | InvalidOrderInput
    | PersistenceInvariant
    | IntegrityViolation
    | IdempotencyConflict
    | OrderNotFound
    | OrderStateConflict
    | DeliveryNotAllowed
    | UnsafeOrderExecution
    | SupplierCapabilityRejected
    | CatalogReadRejected
    | CatalogNotFresh
    | ProductUnavailable
    | VariantUnavailable
    | CatalogDetailRejected
    | CatalogSnapshotMismatch
    | MoneyMismatch
    | PriceCapExceeded
    | QuantityUnavailable
    | MappingNotApproved
    | SupplierMappingMismatch

  /** The texts that pass the source's checks (`isprintable`, NFC, trimming, the length limit, the
      currency pattern), as arbitrary sets, and the three delivery failure texts: every theorem
      holds for all of them. */
  datatype TextRules = TextRules(
    safe128: iset<Text>,
    safe64: iset<Text>,
    identity128: iset<Text>,
    identity64: iset<Text>,
    currency: iset<Text>,
    deliveryCancelled: Text,
    deliveryFailed: Text,
    deliverySinkError: Text)

  datatype MoneyUnit = Minor | OtherUnit(name: Text)

  datatype Money = Money(amount: int, currency: Text, unit: MoneyUnit)

  predicate ValidMoney(rules: TextRules, m: Money) {
    && 0 <= m.amount <= MAX_DATABASE_INTEGER
    && m.currency in rules.currency
    && m.unit == Minor
  }

  datatype OrderRequest = OrderRequest(
    productId: Text,
    variantId: Text,
    quantity: int,
    idempotencyKey: Text,
    maxUnitPrice: Money)

  /** The checks that run when an `OrderRequest` (and its money) is constructed. */
  predicate ValidRequest(rules: TextRules, r: OrderRequest) {
    && r.productId in rules.identity128
    && r.variantId in rules.identity128
    && r.idempotencyKey in rules.identity128
    && 1 <= r.quantity <= MAX_QUANTITY
    && ValidMoney(rules, r.maxUnitPrice)
  }

  datatype Payload = Payload(
    customer: Text,
    productId: Text,
    variantId: Text,
    quantity: int,
    unitPrice: Money,
    maxUnitPrice: Money,
    supplier: Text,
    supplierProduct: Text,
    supplierVariant: Text)

  predicate ValidPayload(rules: TextRules, p: Payload) {
    && p.customer in rules.identity128
    && p.productId in rules.identity128
    && p.variantId in rules.identity128
    && 1 <= p.quantity <= MAX_QUANTITY
    && p.supplier in rules.identity64
    && p.supplierProduct in rules.identity128
    && p.supplierVariant in rules.identity128
    && ValidMoney(rules, p.unitPrice)
    && ValidMoney(rules, p.maxUnitPrice)
  }

  /** Derived UUIDs: one name-based UUID never stands for two names, so each is its own name. */
  datatype Id =
    | IntentUuid(key: Text)
    | AttemptUuid(intent: Id)
    | DeliveryUuid(order: Id, number: nat)

  /** Request and delivery keys, one constructor per prefix of the source's text form. */
  datatype Key = PurchaseKey(intent: Id) | DeliveryKey(order: Id, number: nat)

  /** SHA-256 of the canonical JSON, taken as collision free. */
  datatype Fingerprint = Sha256(of: Payload)

  /** The columns of an intent that no transition writes. */
  datatype IntentTerms = IntentTerms(
    id: Id,
    key: Text,
    customer: Text,
    productId: Text,
    variantId: Text,
    quantity: int,
    unitPrice: Money,
    maxUnitPrice: Money)

  datatype IntentRecord = IntentRecord(terms: IntentTerms, state: PurchaseState)

  /** The columns of a supplier attempt that no transition writes. */
  datatype AttemptTerms = AttemptTerms(
    id: Id,
    orderId: Id,
    supplier: Text,
    requestKey: Key,
    fingerprint: Fingerprint,
    payload: Payload)

  datatype AttemptRecord = AttemptRecord(
    terms: AttemptTerms,
    status: PurchaseState,
    reference: Option<Text>,
    failure: Option<SafeFailureCode>)

  /** The columns of a delivery attempt that no transition writes. */
  datatype DeliveryTerms = DeliveryTerms(id: Id, orderId: Id, number: nat, key: Key)

  datatype DeliveryRecord = DeliveryRecord(terms: DeliveryTerms, status: DeliveryState, failure: Option<Text>)

  datatype Aggregate = Aggregate(
    intent: IntentRecord,
    attempt: AttemptRecord,
    deliveries: seq<DeliveryRecord>)

  function BuildPreparedOrder(customer: Text, request: OrderRequest, payload: Payload): Aggregate {
    var id := IntentUuid(request.idempotencyKey);
    Aggregate(
      IntentRecord(
        IntentTerms(id, request.idempotencyKey, customer, request.productId, request.variantId,
                    request.quantity, payload.unitPrice, request.maxUnitPrice),
        Prepared),
      AttemptRecord(
        AttemptTerms(AttemptUuid(id), id, payload.supplier, PurchaseKey(id), Sha256(payload), payload),
        Prepared, None, None),
      [])
  }

  /** The part of `assert_aggregate_invariants` that no transition can touch. */
  predicate TermsAgree(i: IntentTerms, a: AttemptTerms) {
    var p := a.payload;
    && i.id == a.orderId
    && a.requestKey == PurchaseKey(i.id)
    && a.fingerprint == Sha256(p)
    && a.supplier == p.supplier
    && i.customer == p.customer
    && i.productId == p.productId
    && i.variantId == p.variantId
    && i.quantity == p.quantity
    && i.unitPrice == p.unitPrice
    && i.maxUnitPrice == p.maxUnitPrice
  }

  /** `assert_aggregate_invariants`: the intent, the attempt and the payload tell one story. */
  predicate Consistent(a: Aggregate) {
    a.intent.state == a.attempt.status && TermsAgree(a.intent.terms, a.attempt.terms)
  }

  /** `same_canonical_request` once both sides are consistent. */
  predicate SameRequest(left: Aggregate, right: Aggregate) {
    && left.attempt.terms.fingerprint == right.attempt.terms.fingerprint
    && left.attempt.terms.payload == right.attempt.terms.payload
  }

  predicate Terminal(s: PurchaseState) { s == Succeeded || s == FailedSafe }

  /** `_replace_purchase`: move the intent and its attempt together. */
  function ReplacePurchase(
    a: Aggregate, state: PurchaseState, reference: Option<Text>, failure: Option<SafeFailureCode>): Aggregate
  {
    a.(intent := a.intent.(state := state),
       attempt := a.attempt.(status := state, reference := reference, failure := failure))
  }

  /** `max(numbers, default=0)`. */
  function MaxNumber(ds: seq<DeliveryRecord>): nat {
    if ds == [] then 0
    else
      var rest, last := MaxNumber(ds[..|ds| - 1]), ds[|ds| - 1].terms.number;
      if last > rest then last else rest
  }

  function NewDelivery(order: Id, number: nat): DeliveryRecord {
    DeliveryRecord(DeliveryTerms(DeliveryUuid(order, number), order, number, DeliveryKey(order, number)), Pending, None)
  }

  /** Delivery attempts are numbered exactly 1..n, with the identities derived from those numbers. */
  ghost predicate Numbered(order: Id, ds: seq<DeliveryRecord>) {
    forall i :: 0 <= i < |ds| ==>
      ds[i].terms == NewDelivery(order, i + 1).terms && (ds[i].failure.Some? ==> ds[i].status == Undelivered)
  }

  lemma {:induction false} MaxOfNumbered(order: Id, ds: seq<DeliveryRecord>)
    requires Numbered(order, ds)
    ensures MaxNumber(ds) == |ds|
  {
    if ds != [] {
      MaxOfNumbered(order, ds[..|ds| - 1]);
    }
  }

  /** What the fixed columns of every stored order satisfy; one currency for price and cap is what
      the table form needs to lose nothing. */
  predicate SoundTerms(id: Id, i: IntentTerms, a: AttemptTerms) {
    && TermsAgree(i, a)
    && i.id == id
    && id == IntentUuid(i.key)
    && a.id == AttemptUuid(id)
    && i.unitPrice.unit == i.maxUnitPrice.unit
    && i.unitPrice.currency == i.maxUnitPrice.currency
    && i.unitPrice.amount <= i.maxUnitPrice.amount
    && 0 < i.quantity
  }

  /** What every stored order satisfies: terminal metadata is exactly where the state says it is,
      and only a succeeded order has delivery attempts. */
  ghost predicate Stored(id: Id, a: Aggregate) {
    && SoundTerms(id, a.intent.terms, a.attempt.terms)
    && a.intent.state == a.attempt.status
    && (a.attempt.reference.Some? <==> a.intent.state == Succeeded)
    && (a.attempt.failure.Some? <==> a.intent.state == FailedSafe)
    && Numbered(id, a.deliveries)
    && (a.deliveries != [] ==> a.intent.state == Succeeded)
  }

  /** An aggregate that `place_order` may hand to a repository. */
  ghost predicate Admissible(a: Aggregate) {
    && Stored(a.intent.terms.id, a)
    && a.intent.state == Prepared
    && a.deliveries == []
  }

  /** What was ordered, at what price, from whom and under which keys is the same. */
  predicate SameObligation(a: Aggregate, b: Aggregate) {
    a.intent.terms == b.intent.terms && a.attempt.terms == b.attempt.terms
  }
}
