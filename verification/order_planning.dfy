/** The checks `place_order` makes before it touches the repository. */
module OrderPlanning {
  import opened Common
  import opened OrderModels
  import opened OrderMemory
  import opened OrderTables

  datatype SupplierMapping = SupplierMapping(
    approved: bool,
    productSupplier: Text,
    supplierProduct: Text,
    variantSupplier: Text,
    supplierVariant: Text)

  datatype CatalogVariant = CatalogVariant(id: Text, mapping: SupplierMapping, price: Money, available: int)

  /** `rest` stands for the display fields, which only take part in the comparison with the detail. */
  datatype CatalogProduct = CatalogProduct(id: Text, rest: Text, variants: seq<CatalogVariant>)

  datatype CatalogReading = CatalogRaised | CatalogRead(isFresh: bool, items: seq<CatalogProduct>)

  datatype DetailReading = DetailRaised | DetailMissing | DetailFound(item: CatalogProduct)

  /** One `place_order` call: its arguments and everything it reads from its ports on the way. A
      property that raises or has the wrong type reads as `None`, and so do the capabilities when
      either flag is not a Boolean. */
  datatype Placement = Placement(
    customer: Text,
    request: OrderRequest,
    safe: bool,
    idempotentPurchase: Option<bool>,
    catalog: CatalogReading,
    detail: DetailReading,
    supplier: Option<Text>,
    stillSafe: bool)

  /** `next((item for item in items if item.id == id), None)`. */
  function FindProduct(items: seq<CatalogProduct>, id: Text): (found: Option<CatalogProduct>)
    ensures found.Some? ==> found.value in items && found.value.id == id
    ensures found.None? ==> forall item :: item in items ==> item.id != id
  {
    if items == [] then None
    else if items[0].id == id then Some(items[0])
    else FindProduct(items[1..], id)
  }

  function FindVariant(variants: seq<CatalogVariant>, id: Text): (found: Option<CatalogVariant>)
    ensures found.Some? ==> found.value in variants && found.value.id == id
    ensures found.None? ==> forall v :: v in variants ==> v.id != id
  {
    if variants == [] then None
    else if variants[0].id == id then Some(variants[0])
    else FindVariant(variants[1..], id)
  }

  /** `_authoritative_selection`. */
  function Selection(request: OrderRequest, catalog: CatalogReading, detail: DetailReading)
    : (r: Result<(CatalogProduct, CatalogVariant), OrderError>)
    ensures r.Ok? ==>
      && r.value.0.id == request.productId && r.value.1.id == request.variantId
      && catalog.CatalogRead? && catalog.isFresh && r.value.0 in catalog.items
      && detail == DetailFound(r.value.0) && r.value.1 in r.value.0.variants
  {
    if catalog.CatalogRaised? then Err(CatalogReadRejected)
    else if !catalog.isFresh then Err(CatalogNotFresh)
    else
      match FindProduct(catalog.items, request.productId)
      case None => Err(ProductUnavailable)
      case Some(product) =>
        if FindVariant(product.variants, request.variantId).None? then Err(VariantUnavailable)
        else if !detail.DetailFound? then Err(CatalogDetailRejected)
        else if detail.item != product then Err(CatalogSnapshotMismatch)
        else
          match FindVariant(detail.item.variants, request.variantId)
          case None => Err(CatalogSnapshotMismatch)
          case Some(variant) => Ok((detail.item, variant))
  }

  function PayloadOf(p: Placement, supplier: Text, product: CatalogProduct, variant: CatalogVariant): Payload {
    Payload(p.customer, product.id, variant.id, p.request.quantity, variant.price, p.request.maxUnitPrice,
            supplier, variant.mapping.supplierProduct, variant.mapping.supplierVariant)
  }

  /** `place_order` up to the `prepare` call, checks in source order. */
  function PlanOrder(rules: TextRules, p: Placement): Result<Aggregate, OrderError> {
    if !ValidRequest(rules, p.request) then Err(InvalidOrderInput)
    else if !p.safe then Err(UnsafeOrderExecution)
    else if p.customer !in rules.safe128 then Err(InvalidOrderInput)
    else if p.idempotentPurchase != Some(true) then Err(SupplierCapabilityRejected)
    else
      match Selection(p.request, p.catalog, p.detail)
      case Err(e) => Err(e)
      case Ok((product, variant)) =>
        var price, cap := variant.price, p.request.maxUnitPrice;
        if !ValidMoney(rules, price) then Err(InvalidOrderInput)
        else if price.currency != cap.currency || price.unit != cap.unit then Err(MoneyMismatch)
        else if price.amount > cap.amount then Err(PriceCapExceeded)
        else if variant.available < p.request.quantity then Err(QuantityUnavailable)
        else if !variant.mapping.approved then Err(MappingNotApproved)
        else if p.supplier.None? then Err(SupplierMappingMismatch)
        else if variant.mapping.productSupplier != p.supplier.value || variant.mapping.variantSupplier != p.supplier.value then
          Err(SupplierMappingMismatch)
        else
          var payload := PayloadOf(p, p.supplier.value, product, variant);
          if !ValidPayload(rules, payload) then Err(SupplierMappingMismatch)
          else if !p.stillSafe then Err(UnsafeOrderExecution)
          else Ok(BuildPreparedOrder(p.customer, p.request, payload))
  }

  /** What the caller agreed to and the catalog offered, for a planned order. */
  ghost predicate Authorised(p: Placement, payload: Payload) {
    && p.safe && p.stillSafe
    && payload.customer == p.customer
    && payload.productId == p.request.productId
    && payload.variantId == p.request.variantId
    && payload.quantity == p.request.quantity
    && payload.maxUnitPrice == p.request.maxUnitPrice
    && payload.unitPrice.currency == p.request.maxUnitPrice.currency
    && payload.unitPrice.amount <= p.request.maxUnitPrice.amount
    && p.supplier == Some(payload.supplier)
    && exists product, variant :: Offered(p, payload, product, variant)
  }

  ghost predicate Offered(p: Placement, payload: Payload, product: CatalogProduct, variant: CatalogVariant) {
    && p.detail == DetailFound(product) && variant in product.variants
    && variant.id == payload.variantId && product.id == payload.productId
    && variant.price == payload.unitPrice
    && payload.quantity <= variant.available
    && variant.mapping.approved
    && variant.mapping.productSupplier == variant.mapping.variantSupplier == payload.supplier
    && variant.mapping.supplierProduct == payload.supplierProduct
    && variant.mapping.supplierVariant == payload.supplierVariant
  }

  /** A planned order is one the repositories may store, and it says what the caller authorised. */
  lemma PlannedOrderIsAuthorised(rules: TextRules, p: Placement, c: Aggregate)
    requires PlanOrder(rules, p) == Ok(c)
    ensures CallOk(rules, Prepare(c))
    ensures c.intent.terms.key == p.request.idempotencyKey
    ensures Authorised(p, c.attempt.terms.payload)
  {
    var (product, variant) := Selection(p.request, p.catalog, p.detail).value;
    assert Offered(p, c.attempt.terms.payload, product, variant);
  }

  /** The catalog names the product and the variant, and they are the first ones so named. */
  ghost predicate Named(p: Placement, i: nat, j: nat) {
    && p.catalog.CatalogRead? && i < |p.catalog.items|
    && p.catalog.items[i].id == p.request.productId
    && (forall k :: 0 <= k < i ==> p.catalog.items[k].id != p.request.productId)
    && var variants := p.catalog.items[i].variants;
    && j < |variants|
    && variants[j].id == p.request.variantId
    && (forall k :: 0 <= k < j ==> variants[k].id != p.request.variantId)
  }

  /** The named variant can be bought: its detail confirms it, price and cap are comparable and the
      price is within the cap, enough is available, and its mapping leads to this supplier. */
  ghost predicate Buyable(rules: TextRules, p: Placement, i: nat, j: nat)
    requires Named(p, i, j)
  {
    var product := p.catalog.items[i];
    var variant := product.variants[j];
    && p.detail == DetailFound(product)
    && ValidMoney(rules, variant.price)
    && variant.price.currency == p.request.maxUnitPrice.currency
    && variant.price.amount <= p.request.maxUnitPrice.amount
    && p.request.quantity <= variant.available
    && variant.mapping.approved
    && p.supplier == Some(variant.mapping.productSupplier) == Some(variant.mapping.variantSupplier)
    && p.supplier.value in rules.identity64
    && variant.mapping.supplierProduct in rules.identity128
    && variant.mapping.supplierVariant in rules.identity128
  }

  lemma {:induction false} FirstProduct(items: seq<CatalogProduct>, id: Text, i: nat)
    requires i < |items| && items[i].id == id && forall k :: 0 <= k < i ==> items[k].id != id
    ensures FindProduct(items, id) == Some(items[i])
  {
    if i > 0 {
      assert items[0].id != id;
      FirstProduct(items[1..], id, i - 1);
    }
  }

  lemma {:induction false} FirstVariant(variants: seq<CatalogVariant>, id: Text, i: nat)
    requires i < |variants| && variants[i].id == id && forall k :: 0 <= k < i ==> variants[k].id != id
    ensures FindVariant(variants, id) == Some(variants[i])
  {
    if i > 0 {
      assert variants[0].id != id;
      FirstVariant(variants[1..], id, i - 1);
    }
  }

  lemma {:induction false} ProductPosition(items: seq<CatalogProduct>, id: Text) returns (i: nat)
    requires FindProduct(items, id).Some?
    ensures i < |items| && items[i].id == id && forall k :: 0 <= k < i ==> items[k].id != id
  {
    if items[0].id == id {
      i := 0;
    } else {
      i := ProductPosition(items[1..], id);
      i := i + 1;
    }
  }

  lemma {:induction false} VariantPosition(variants: seq<CatalogVariant>, id: Text) returns (i: nat)
    requires FindVariant(variants, id).Some?
    ensures i < |variants| && variants[i].id == id && forall k :: 0 <= k < i ==> variants[k].id != id
  {
    if variants[0].id == id {
      i := 0;
    } else {
      i := VariantPosition(variants[1..], id);
      i := i + 1;
    }
  }

  lemma NamedIsSelected(p: Placement, i: nat, j: nat)
    requires Named(p, i, j)
    ensures FindProduct(p.catalog.items, p.request.productId) == Some(p.catalog.items[i])
    ensures FindVariant(p.catalog.items[i].variants, p.request.variantId) == Some(p.catalog.items[i].variants[j])
  {
    FirstProduct(p.catalog.items, p.request.productId, i);
    FirstVariant(p.catalog.items[i].variants, p.request.variantId, j);
  }

  /** The catalog offers what was requested. */
  ghost predicate OnOffer(rules: TextRules, p: Placement) {
    exists i: nat, j: nat :: Named(p, i, j) && Buyable(rules, p, i, j)
  }

  /** `place_order` reaches `prepare` exactly for a valid request by a valid customer, in safe
      execution before and after, to a supplier that buys idempotently, for a fresh catalog that
      offers what was requested. */
  lemma PlansExactlyWhatIsOnOffer(rules: TextRules, p: Placement)
    ensures PlanOrder(rules, p).Ok? <==>
      && ValidRequest(rules, p.request) && p.customer in rules.safe128 && p.customer in rules.identity128
      && p.safe && p.stillSafe && p.idempotentPurchase == Some(true)
      && p.catalog.CatalogRead? && p.catalog.isFresh && OnOffer(rules, p)
  {
    if PlanOrder(rules, p).Ok? {
      var i := ProductPosition(p.catalog.items, p.request.productId);
      FirstProduct(p.catalog.items, p.request.productId, i);
      var j := VariantPosition(p.catalog.items[i].variants, p.request.variantId);
      FirstVariant(p.catalog.items[i].variants, p.request.variantId, j);
      assert Named(p, i, j) && Buyable(rules, p, i, j);
    }
    if OnOffer(rules, p) {
      var i: nat, j: nat :| Named(p, i, j) && Buyable(rules, p, i, j);
      NamedIsSelected(p, i, j);
    }
  }

  /** The catalog names the product at `i`, first. */
  ghost predicate FirstNamed(p: Placement, i: nat) {
    && p.catalog.CatalogRead? && p.catalog.isFresh && i < |p.catalog.items|
    && p.catalog.items[i].id == p.request.productId
    && forall k :: 0 <= k < i ==> p.catalog.items[k].id != p.request.productId
  }

  /** What is wrong with a placement that is refused with this error, told from the first product and variant
      that the request names, at `i` and `j`. */
  ghost predicate Deserved(rules: TextRules, p: Placement, e: OrderError, i: nat, j: nat) {
    match e
    case InvalidOrderInput =>
      || !ValidRequest(rules, p.request) || p.customer !in rules.safe128
      || (Named(p, i, j) && !ValidMoney(rules, p.catalog.items[i].variants[j].price))
    case UnsafeOrderExecution => !p.safe || !p.stillSafe
    case SupplierCapabilityRejected => p.idempotentPurchase != Some(true)
    case CatalogReadRejected => p.catalog.CatalogRaised?
    case CatalogNotFresh => p.catalog.CatalogRead? && !p.catalog.isFresh
    case ProductUnavailable => p.catalog.CatalogRead? && forall item :: item in p.catalog.items ==> item.id != p.request.productId
    case VariantUnavailable => FirstNamed(p, i) && forall v :: v in p.catalog.items[i].variants ==> v.id != p.request.variantId
    case CatalogDetailRejected => Named(p, i, j) && !p.detail.DetailFound?
    case CatalogSnapshotMismatch => Named(p, i, j) && p.detail.DetailFound? && p.detail.item != p.catalog.items[i]
    case MoneyMismatch =>
      && Named(p, i, j)
      && var price := p.catalog.items[i].variants[j].price;
      price.currency != p.request.maxUnitPrice.currency || price.unit != p.request.maxUnitPrice.unit
    case PriceCapExceeded => Named(p, i, j) && p.catalog.items[i].variants[j].price.amount > p.request.maxUnitPrice.amount
    case QuantityUnavailable => Named(p, i, j) && p.catalog.items[i].variants[j].available < p.request.quantity
    case MappingNotApproved => Named(p, i, j) && !p.catalog.items[i].variants[j].mapping.approved
    case SupplierMappingMismatch =>
      && Named(p, i, j)
      && var mapping := p.catalog.items[i].variants[j].mapping;
      || p.supplier.None? || p.supplier != Some(mapping.productSupplier) || p.supplier != Some(mapping.variantSupplier)
      || p.supplier.value !in rules.identity64 || p.customer !in rules.identity128
      || mapping.supplierProduct !in rules.identity128 || mapping.supplierVariant !in rules.identity128
    case _ => false
  }

  /** Where the catalog names the product and the variant. */
  lemma Positions(p: Placement) returns (i: nat, j: nat)
    requires p.catalog.CatalogRead? && p.catalog.isFresh
    ensures var product := FindProduct(p.catalog.items, p.request.productId);
      product.Some? ==>
        && FirstNamed(p, i) && product == Some(p.catalog.items[i])
        && var variant := FindVariant(product.value.variants, p.request.variantId);
        variant.Some? ==> Named(p, i, j) && variant == Some(product.value.variants[j])
  {
    i, j := 0, 0;
    if FindProduct(p.catalog.items, p.request.productId).Some? {
      i := ProductPosition(p.catalog.items, p.request.productId);
      FirstProduct(p.catalog.items, p.request.productId, i);
      if FindVariant(p.catalog.items[i].variants, p.request.variantId).Some? {
        j := VariantPosition(p.catalog.items[i].variants, p.request.variantId);
        FirstVariant(p.catalog.items[i].variants, p.request.variantId, j);
      }
    }
  }

  /** What the selection finds, or what it is refused for. */
  lemma SelectionShows(rules: TextRules, p: Placement) returns (i: nat, j: nat)
    ensures match Selection(p.request, p.catalog, p.detail)
            case Ok((product, variant)) =>
              Named(p, i, j) && product == p.catalog.items[i] && variant == p.catalog.items[i].variants[j]
            case Err(e) => e != InvalidOrderInput && e != SupplierMappingMismatch && Deserved(rules, p, e, i, j)
  {
    hide ValidRequest, ValidMoney, FindProduct, FindVariant, Named, FirstNamed;
    i, j := 0, 0;
    if p.catalog.CatalogRead? && p.catalog.isFresh {
      i, j := Positions(p);
    }
  }

  /** Every refusal is for its own reason. */
  lemma RefusedForItsReason(rules: TextRules, p: Placement) returns (i: nat, j: nat)
    requires PlanOrder(rules, p).Err?
    ensures Deserved(rules, p, PlanOrder(rules, p).error, i, j)
  {
    hide Selection, Named;
    i, j := SelectionShows(rules, p);
  }
}