/** `read_storefront`: the customer view of the visible listings, and its conservative stock state. */
module Storefront {
  import opened Common
  import opened OfferKeys
  import opened Curation
  import opened CurationWorkspace
  import opened Sorting

  datatype Availability = InStock | OutOfStock | UnknownStock

  datatype StoreState = Ready | PartialState | EmptyState

  datatype StoreItem = StoreItem(id: Text, content: Text, price: Price, availability: Availability)

  datatype StoreResponse = StoreResponse(
    revision: nat,
    state: StoreState,
    items: seq<StoreItem>,
    partial: bool,
    unresolved: nat,
    sourcePartial: bool)

  /** The `StorefrontCatalogResponse` validator. */
  ghost predicate ValidResponse(r: StoreResponse) {
    && (forall i, j :: 0 <= i < j < |r.items| ==> r.items[i].id != r.items[j].id)
    && (forall i :: 0 <= i < |r.items| ==> r.items[i].price.vnd)
    && (r.partial <==> r.state == PartialState)
    && (r.state == EmptyState ==> r.items == [] && r.unresolved == 0 && !r.sourcePartial)
    && (r.state != EmptyState ==> r.items != [])
    && (r.state == Ready ==> r.unresolved == 0 && !r.sourcePartial)
    && (r.state == PartialState ==> r.unresolved > 0 || r.sourcePartial)
  }

  function ListingOrder(l: Listing): nat { l.card.sortOrder }

  predicate Shown(l: Listing) { l.card.visible && l.card.price.Some? }

  function Filter(listings: seq<Listing>): (r: seq<Listing>)
    ensures forall l :: l in r ==> l in listings && Shown(l)
  {
    if listings == [] then []
    else
      Filter(listings[..|listings| - 1])
      + (if Shown(listings[|listings| - 1]) then [listings[|listings| - 1]] else [])
  }

  function VisibleListings(d: Document): seq<Listing> { Filter(SortBy(d.listings, ListingOrder)) }

  /** The evidence: the last live product of each reference. */
  function Resolve(live: seq<Product>): map<OfferRef, Product>
    requires forall i :: 0 <= i < |live| ==> live[i].source.Live?
  {
    if live == [] then map[]
    else Resolve(live[..|live| - 1])[RefOf(live[|live| - 1]) := live[|live| - 1]]
  }

  /** How many references have no evidence. */
  function Missing(refs: seq<OfferRef>, evidence: map<OfferRef, Product>): nat {
    if refs == [] then 0
    else Missing(refs[..|refs| - 1], evidence) + (if refs[|refs| - 1] in evidence then 0 else 1)
  }

  predicate SomeStock(refs: seq<OfferRef>, evidence: map<OfferRef, Product>) {
    exists i :: 0 <= i < |refs| && refs[i] in evidence && evidence[refs[i]].available > 0
  }

  function AvailabilityOf(refs: seq<OfferRef>, evidence: map<OfferRef, Product>): Availability {
    if SomeStock(refs, evidence) then InStock
    else if Missing(refs, evidence) == 0 then OutOfStock
    else UnknownStock
  }

  function ItemOf(l: Listing, evidence: map<OfferRef, Product>): StoreItem
    requires Shown(l)
  {
    StoreItem(l.card.id, l.card.content, l.card.price.value, AvailabilityOf(l.refs, evidence))
  }

  function ItemsOf(listings: seq<Listing>, evidence: map<OfferRef, Product>): (r: seq<StoreItem>)
    requires forall l :: l in listings ==> Shown(l)
    ensures |r| == |listings| && forall i :: 0 <= i < |listings| ==> r[i] == ItemOf(listings[i], evidence)
  {
    if listings == [] then []
    else ItemsOf(listings[..|listings| - 1], evidence) + [ItemOf(listings[|listings| - 1], evidence)]
  }

  /** `read_storefront` for a document and the products read now; a product id that is no valid
      reference raises. The products are not read at all for an empty storefront. */
  ghost function ReadStorefront(rules: CurationRules, d: Document, products: seq<Product>, sourcePartial: bool)
    : Result<StoreResponse, CurationError>
  {
    var visible := VisibleListings(d);
    var live := LiveProducts(products);
    if visible == [] then Ok(StoreResponse(d.revision, EmptyState, [], false, 0, false))
    else if !RefsValid(rules, live) then Err(ContractRejected)
    else
      var evidence := Resolve(live);
      var unresolved := Missing(RefsOf(visible), evidence);
      var partial := sourcePartial || unresolved > 0;
      Ok(StoreResponse(d.revision, if partial then PartialState else Ready, ItemsOf(visible, evidence), partial, unresolved, sourcePartial))
  }

  // ---------------------------------------------------------------------------------------------
  // The loops

  /** The loop that fills `resolved`. */
  method CollectEvidence(products: seq<Product>) returns (evidence: map<OfferRef, Product>)
    ensures evidence == Resolve(LiveProducts(products))
  {
    evidence := map[];
    for i := 0 to |products|
      invariant evidence == Resolve(LiveProducts(products[..i]))
    {
      var p := products[i];
      assert products[..i + 1][..i] == products[..i];
      if p.source.Live? {
        ghost var before := LiveProducts(products[..i]);
        assert LiveProducts(products[..i + 1]) == before + [p];
        assert (before + [p])[..|before|] == before;
        assert Resolve(before + [p]) == Resolve(before)[RefOf(p) := p];
        evidence := evidence[RefOf(p) := p];
      } else {
        assert LiveProducts(products[..i + 1]) == LiveProducts(products[..i]);
      }
    }
    assert products[..|products|] == products;
  }

  lemma {:induction false} MissingConcat(a: seq<OfferRef>, b: seq<OfferRef>, evidence: map<OfferRef, Product>)
    ensures Missing(a + b, evidence) == Missing(a, evidence) + Missing(b, evidence)
  {
    if b == [] {
      assert a + b == a;
    } else {
      MissingConcat(a, b[..|b| - 1], evidence);
      assert (a + b)[..|a + b| - 1] == a + b[..|b| - 1];
    }
  }

  /** One listing's links: how many are missing, and whether a known one has stock. */
  method CheckLinks(refs: seq<OfferRef>, evidence: map<OfferRef, Product>) returns (missing: nat, stocked: bool)
    ensures missing == Missing(refs, evidence) && stocked == SomeStock(refs, evidence)
  {
    missing, stocked := 0, false;
    for j := 0 to |refs|
      invariant missing == Missing(refs[..j], evidence)
      invariant stocked <==> SomeStock(refs[..j], evidence)
    {
      assert refs[..j + 1][..j] == refs[..j];
      StockGrows(refs, j, evidence);
      if refs[j] !in evidence {
        missing := missing + 1;
      } else if evidence[refs[j]].available > 0 {
        stocked := true;
      }
    }
    assert refs[..|refs|] == refs;
  }

  /** The loop over the visible listings, with its running count. */
  method BuildItems(visible: seq<Listing>, evidence: map<OfferRef, Product>)
    returns (items: seq<StoreItem>, unresolved: nat)
    requires forall l :: l in visible ==> Shown(l)
    ensures items == ItemsOf(visible, evidence)
    ensures unresolved == Missing(RefsOf(visible), evidence)
  {
    items, unresolved := [], 0;
    for i := 0 to |visible|
      invariant items == ItemsOf(visible[..i], evidence)
      invariant unresolved == Missing(RefsOf(visible[..i]), evidence)
    {
      assert visible[..i + 1][..i] == visible[..i];
      var listing := visible[i];
      assert listing in visible;
      var missing, stocked := CheckLinks(listing.refs, evidence);
      MissingConcat(RefsOf(visible[..i]), listing.refs, evidence);
      unresolved := unresolved + missing;
      var availability := if stocked then InStock else if missing == 0 then OutOfStock else UnknownStock;
      items := items + [StoreItem(listing.card.id, listing.card.content, listing.card.price.value, availability)];
    }
    assert visible[..|visible|] == visible;
  }

  lemma StockGrows(refs: seq<OfferRef>, j: nat, evidence: map<OfferRef, Product>)
    requires j < |refs|
    ensures SomeStock(refs[..j + 1], evidence) <==>
            SomeStock(refs[..j], evidence) || (refs[j] in evidence && evidence[refs[j]].available > 0)
  {
    if SomeStock(refs[..j], evidence) {
      var i :| 0 <= i < j && refs[..j][i] in evidence && evidence[refs[..j][i]].available > 0;
      assert refs[..j + 1][i] == refs[..j][i];
    }
    if refs[j] in evidence && evidence[refs[j]].available > 0 {
      assert refs[..j + 1][j] == refs[j];
    }
    if SomeStock(refs[..j + 1], evidence) {
      var i :| 0 <= i < j + 1 && refs[..j + 1][i] in evidence && evidence[refs[..j + 1][i]].available > 0;
      assert i < j ==> refs[..j][i] == refs[..j + 1][i];
    }
  }

  // ---------------------------------------------------------------------------------------------
  // The evidence is conservative

  /** More evidence: everything known before is still known, and the same. */
  ghost predicate Extends(evidence: map<OfferRef, Product>, more: map<OfferRef, Product>) {
    forall r :: r in evidence ==> r in more && more[r] == evidence[r]
  }

  lemma {:induction false} MissingFalls(refs: seq<OfferRef>, evidence: map<OfferRef, Product>, more: map<OfferRef, Product>)
    requires Extends(evidence, more)
    ensures Missing(refs, more) <= Missing(refs, evidence)
  {
    if refs != [] {
      MissingFalls(refs[..|refs| - 1], evidence, more);
    }
  }

  lemma {:induction false} NothingMissing(refs: seq<OfferRef>, evidence: map<OfferRef, Product>)
    requires Missing(refs, evidence) == 0
    ensures forall i :: 0 <= i < |refs| ==> refs[i] in evidence
  {
    if refs != [] {
      NothingMissing(refs[..|refs| - 1], evidence);
    }
  }

  /** More evidence can turn UNKNOWN into a definite answer, and never changes a definite one. */
  lemma MoreEvidenceNeverFlips(refs: seq<OfferRef>, evidence: map<OfferRef, Product>, more: map<OfferRef, Product>)
    requires Extends(evidence, more)
    ensures AvailabilityOf(refs, evidence) != UnknownStock ==> AvailabilityOf(refs, more) == AvailabilityOf(refs, evidence)
  {
    MissingFalls(refs, evidence, more);
    if SomeStock(refs, evidence) {
      var i :| 0 <= i < |refs| && refs[i] in evidence && evidence[refs[i]].available > 0;
      assert refs[i] in more && more[refs[i]].available > 0;
    } else if Missing(refs, evidence) == 0 {
      NothingMissing(refs, evidence);
    }
  }

  /** What each answer means: IN_STOCK is witnessed by a known product with stock, OUT_OF_STOCK by all
      products being known and empty. */
  lemma AvailabilityMeans(refs: seq<OfferRef>, evidence: map<OfferRef, Product>)
    ensures AvailabilityOf(refs, evidence) == InStock <==> exists i :: 0 <= i < |refs| && refs[i] in evidence && evidence[refs[i]].available > 0
    ensures AvailabilityOf(refs, evidence) == OutOfStock <==> forall i :: 0 <= i < |refs| ==> refs[i] in evidence && evidence[refs[i]].available == 0
  {
    if Missing(refs, evidence) == 0 {
      NothingMissing(refs, evidence);
    } else {
      SomethingMissing(refs, evidence);
    }
  }

  lemma {:induction false} SomethingMissing(refs: seq<OfferRef>, evidence: map<OfferRef, Product>)
    requires Missing(refs, evidence) > 0
    ensures exists i :: 0 <= i < |refs| && refs[i] !in evidence
  {
    if refs[|refs| - 1] in evidence {
      SomethingMissing(refs[..|refs| - 1], evidence);
      var i :| 0 <= i < |refs| - 1 && refs[..|refs| - 1][i] !in evidence;
      assert refs[i] !in evidence;
    }
  }

  lemma {:induction false} ResolveAppends(live: seq<Product>, more: seq<Product>)
    requires forall i :: 0 <= i < |live| ==> live[i].source.Live?
    requires forall i :: 0 <= i < |more| ==> more[i].source.Live? && RefOf(more[i]) !in Resolve(live)
    ensures Extends(Resolve(live), Resolve(live + more))
  {
    if more == [] {
      assert live + more == live;
    } else {
      var front := more[..|more| - 1];
      ResolveAppends(live, front);
      assert (live + more)[..|live + more| - 1] == live + front;
    }
  }

  lemma {:induction false} LiveProductsConcat(a: seq<Product>, b: seq<Product>)
    ensures LiveProducts(a + b) == LiveProducts(a) + LiveProducts(b)
  {
    if b == [] {
      assert a + b == a;
    } else {
      LiveProductsConcat(a, b[..|b| - 1]);
      assert (a + b)[..|a + b| - 1] == a + b[..|b| - 1];
    }
  }

  /** The whole response: with more products, each for an offer not seen before, the same listings are
      shown, no definite answer changes, and no more links are unresolved. */
  lemma MoreProductsAreConservative(
    rules: CurationRules, d: Document, products: seq<Product>, more: seq<Product>, partial: bool, partial': bool)
    requires var news := LiveProducts(more);
      forall i :: 0 <= i < |news| ==> RefOf(news[i]) !in Resolve(LiveProducts(products))
    requires ReadStorefront(rules, d, products, partial).Ok? && ReadStorefront(rules, d, products + more, partial').Ok?
    ensures var r, r' := ReadStorefront(rules, d, products, partial).value, ReadStorefront(rules, d, products + more, partial').value;
      && |r'.items| == |r.items| && r'.unresolved <= r.unresolved
      && forall i :: 0 <= i < |r.items| ==>
        && r'.items[i] == r.items[i].(availability := r'.items[i].availability)
        && (r.items[i].availability != UnknownStock ==> r'.items[i].availability == r.items[i].availability)
  {
    hide VisibleListings, RefsOf, Missing, Resolve, AvailabilityOf, LiveProducts, Extends;
    var live := LiveProducts(products);
    var visible := VisibleListings(d);
    LiveProductsConcat(products, more);
    ResolveAppends(live, LiveProducts(more));
    var evidence, evidence' := Resolve(live), Resolve(LiveProducts(products + more));
    MissingFalls(RefsOf(visible), evidence, evidence');
    forall i | 0 <= i < |visible|
      ensures AvailabilityOf(visible[i].refs, evidence) != UnknownStock ==>
        AvailabilityOf(visible[i].refs, evidence') == AvailabilityOf(visible[i].refs, evidence)
    {
      MoreEvidenceNeverFlips(visible[i].refs, evidence, evidence');
    }
  }

  // ---------------------------------------------------------------------------------------------
  // The response always passes its validator

  ghost predicate UniqueIds(listings: seq<Listing>) {
    forall i, j :: 0 <= i < j < |listings| ==> listings[i].card.id != listings[j].card.id
  }

  lemma AppendKeepsUnique(listings: seq<Listing>, l: Listing)
    requires UniqueIds(listings) && forall x :: x in listings ==> x.card.id != l.card.id
    ensures UniqueIds(listings + [l])
  {
  }

  lemma {:induction false} InsertKeepsUnique(sorted: seq<Listing>, l: Listing)
    requires UniqueIds(sorted) && forall x :: x in sorted ==> x.card.id != l.card.id
    ensures UniqueIds(Insert(sorted, l, ListingOrder))
  {
    if sorted == [] || ListingOrder(sorted[|sorted| - 1]) <= ListingOrder(l) {
      AppendKeepsUnique(sorted, l);
    } else {
      var front, last := sorted[..|sorted| - 1], sorted[|sorted| - 1];
      InsertKeepsUnique(front, l);
      InsertKeepsMembers(front, l, ListingOrder);
      forall x | x in Insert(front, l, ListingOrder) ensures x.card.id != last.card.id {
        assert x in multiset(Insert(front, l, ListingOrder));
        assert x in front || x == l;
      }
      AppendKeepsUnique(Insert(front, l, ListingOrder), last);
    }
  }

  lemma {:induction false} SortKeepsUnique(listings: seq<Listing>)
    requires UniqueIds(listings)
    ensures UniqueIds(SortBy(listings, ListingOrder))
  {
    if listings != [] {
      var front, last := listings[..|listings| - 1], listings[|listings| - 1];
      SortKeepsUnique(front);
      SortIsSorted(front, ListingOrder);
      forall x | x in SortBy(front, ListingOrder) ensures x.card.id != last.card.id {
        assert x in multiset(SortBy(front, ListingOrder));
        assert x in front;
      }
      InsertKeepsUnique(SortBy(front, ListingOrder), last);
    }
  }

  lemma {:induction false} FilterKeepsUnique(listings: seq<Listing>)
    requires UniqueIds(listings)
    ensures UniqueIds(Filter(listings))
  {
    if listings != [] {
      var front, last := listings[..|listings| - 1], listings[|listings| - 1];
      FilterKeepsUnique(front);
      if Shown(last) {
        forall x | x in Filter(front) ensures x.card.id != last.card.id {
          assert x in front;
        }
        AppendKeepsUnique(Filter(front), last);
      }
    }
  }

  lemma VisibleAreUnique(d: Document)
    requires ValidCards(CardsOf(d.listings))
    ensures UniqueIds(VisibleListings(d))
  {
    forall i, j | 0 <= i < j < |d.listings| ensures d.listings[i].card.id != d.listings[j].card.id {
      assert CardsOf(d.listings)[i].id != CardsOf(d.listings)[j].id;
    }
    hide ValidCards;
    SortKeepsUnique(d.listings);
    FilterKeepsUnique(SortBy(d.listings, ListingOrder));
  }

  lemma VisibleArePriced(d: Document, l: Listing)
    requires ValidCards(CardsOf(d.listings)) && l in VisibleListings(d)
    ensures l.card.price.Some? && l.card.price.value.vnd
  {
    SortIsSorted(d.listings, ListingOrder);
    assert l in multiset(SortBy(d.listings, ListingOrder));
    assert l in multiset(d.listings);
    var i :| 0 <= i < |d.listings| && d.listings[i] == l;
    assert ValidCard(CardsOf(d.listings)[i]);
  }

  /** Every response built from a valid document passes the response validator, and its unresolved count
      is the number of visible links without evidence. */
  lemma ResponseIsValid(rules: CurationRules, d: Document, products: seq<Product>, partial: bool)
    requires ValidDocument(rules, d) && ReadStorefront(rules, d, products, partial).Ok?
    ensures var r := ReadStorefront(rules, d, products, partial).value;
      && ValidResponse(r)
      && r.revision == d.revision
      && (r.state != EmptyState ==> r.unresolved == Missing(RefsOf(VisibleListings(d)), Resolve(LiveProducts(products))))
  {
    VisibleAreUnique(d);
    hide ValidCards, VisibleListings, RefsOf, Missing, Resolve, AvailabilityOf, Distinct, ValidRefs;
    forall i | 0 <= i < |VisibleListings(d)|
      ensures VisibleListings(d)[i].card.price.Some? && VisibleListings(d)[i].card.price.value.vnd
    {
      VisibleArePriced(d, VisibleListings(d)[i]);
    }
  }

  // ---------------------------------------------------------------------------------------------
  // What the response shows

  /** Product `i` is the last one for this reference. */
  predicate LastOffer(live: seq<Product>, i: int, ref: OfferRef)
    requires forall j :: 0 <= j < |live| ==> live[j].source.Live?
  {
    && 0 <= i < |live| && RefOf(live[i]) == ref
    && forall j :: i < j < |live| ==> RefOf(live[j]) != ref
  }

  lemma LastOfferAdds(front: seq<Product>, last: Product, i: int, ref: OfferRef)
    requires last.source.Live? && forall j :: 0 <= j < |front| ==> front[j].source.Live?
    ensures LastOffer(front + [last], i, ref) <==> if RefOf(last) == ref then i == |front| else LastOffer(front, i, ref)
  {
    var live := front + [last];
    assert live[|front|] == last;
    assert forall j :: 0 <= j < |front| ==> live[j] == front[j];
    if LastOffer(live, i, ref) && RefOf(last) != ref {
      assert forall j :: i < j < |front| ==> front[j] == live[j] && RefOf(live[j]) != ref;
    }
  }

  /** The evidence is the last live product of each reference, and nothing else. */
  lemma {:induction false} EvidenceIsLastOffer(live: seq<Product>, ref: OfferRef)
    requires forall j :: 0 <= j < |live| ==> live[j].source.Live?
    ensures ref in Resolve(live) <==> exists i :: LastOffer(live, i, ref)
    ensures forall i :: LastOffer(live, i, ref) ==> ref in Resolve(live) && Resolve(live)[ref] == live[i]
  {
    if live != [] {
      var front, last := live[..|live| - 1], live[|live| - 1];
      assert live == front + [last];
      EvidenceIsLastOffer(front, ref);
      forall i: int ensures LastOffer(live, i, ref) <==> if RefOf(last) == ref then i == |front| else LastOffer(front, i, ref) {
        LastOfferAdds(front, last, i, ref);
      }
      hide LastOffer;
      assert forall i :: 0 <= i < |front| ==> front[i] == live[i];
      if RefOf(last) == ref {
        assert LastOffer(live, |front|, ref);
      }
      assert forall i :: LastOffer(front, i, ref) && RefOf(last) != ref ==> LastOffer(live, i, ref);
      assert forall i :: LastOffer(live, i, ref) && RefOf(last) != ref ==> LastOffer(front, i, ref) && 0 <= i < |front|;
    }
  }

  /** A live product of this reference has stock. */
  ghost predicate Stocked(live: seq<Product>, ref: OfferRef)
    requires forall j :: 0 <= j < |live| ==> live[j].source.Live?
  {
    exists i :: LastOffer(live, i, ref) && live[i].available > 0
  }

  /** The live product of this reference has none. */
  ghost predicate SoldOut(live: seq<Product>, ref: OfferRef)
    requires forall j :: 0 <= j < |live| ==> live[j].source.Live?
  {
    exists i :: LastOffer(live, i, ref) && live[i].available == 0
  }

  /** What a listing's links say of its stock. */
  ghost predicate TellsStock(a: Availability, refs: seq<OfferRef>, live: seq<Product>)
    requires forall j :: 0 <= j < |live| ==> live[j].source.Live?
  {
    && (a == InStock <==> exists ref :: ref in refs && Stocked(live, ref))
    && (a == OutOfStock <==> forall ref :: ref in refs ==> SoldOut(live, ref))
  }

  lemma AvailabilityTellsStock(refs: seq<OfferRef>, live: seq<Product>)
    requires forall j :: 0 <= j < |live| ==> live[j].source.Live?
    ensures TellsStock(AvailabilityOf(refs, Resolve(live)), refs, live)
  {
    AvailabilityMeans(refs, Resolve(live));
    forall ref
      ensures Stocked(live, ref) <==> ref in Resolve(live) && Resolve(live)[ref].available > 0
      ensures SoldOut(live, ref) <==> ref in Resolve(live) && Resolve(live)[ref].available == 0
    {
      EvidenceIsLastOffer(live, ref);
    }
    hide Stocked, SoldOut, AvailabilityOf, Resolve;
    assert forall ref :: ref in refs <==> exists i :: 0 <= i < |refs| && refs[i] == ref;
  }

  lemma {:induction false} FilterKeepsShown(listings: seq<Listing>, l: Listing)
    ensures l in Filter(listings) <==> l in listings && Shown(l)
  {
    if listings != [] {
      var front, last := listings[..|listings| - 1], listings[|listings| - 1];
      FilterKeepsShown(front, l);
      assert listings == front + [last];
    }
  }

  lemma {:induction false} FilterKeepsOrder(listings: seq<Listing>)
    requires Ascending(listings, ListingOrder)
    ensures Ascending(Filter(listings), ListingOrder)
  {
    hide Filter;
    if listings == [] {
      FilterOfNothing();
    } else {
      var front, last := listings[..|listings| - 1], listings[|listings| - 1];
      FilterKeepsOrder(front);
      FilterAdds(front, last);
      assert listings == front + [last];
      forall l | l in Filter(front) ensures ListingOrder(l) <= ListingOrder(last) {
        FilterKeepsShown(front, l);
        var i :| 0 <= i < |front| && front[i] == l;
        assert listings[i] == l;
      }
      var kept := Filter(front);
      AppendKeepsAscending(kept, last, ListingOrder);
    }
  }

  lemma FilterOfNothing()
    ensures Filter([]) == []
  {
  }

  lemma FilterAdds(front: seq<Listing>, last: Listing)
    ensures Filter(front + [last]) == Filter(front) + (if Shown(last) then [last] else [])
  {
    assert (front + [last])[..|front|] == front;
  }

  /** The shown listings are those of the document that are visible and priced, each once, by sort order. */
  ghost predicate ShownOf(shown: seq<Listing>, d: Document) {
    && (forall l :: l in shown <==> l in d.listings && l.card.visible && l.card.price.Some?)
    && (forall i, j :: 0 <= i < j < |shown| ==>
          shown[i].card.id != shown[j].card.id && shown[i].card.sortOrder <= shown[j].card.sortOrder)
  }

  lemma VisibleAreShown(d: Document)
    requires ValidCards(CardsOf(d.listings))
    ensures ShownOf(VisibleListings(d), d)
  {
    hide ValidCards, Filter, SortBy;
    VisibleAreUnique(d);
    SortIsSorted(d.listings, ListingOrder);
    var sorted := SortBy(d.listings, ListingOrder);
    FilterKeepsOrder(sorted);
    forall l ensures l in Filter(sorted) <==> l in d.listings && l.card.visible && l.card.price.Some? {
      FilterKeepsShown(sorted, l);
      assert l in sorted <==> l in multiset(sorted);
      assert l in d.listings <==> l in multiset(d.listings);
    }
    var shown := Filter(sorted);
    forall i, j | 0 <= i < j < |shown| ensures shown[i].card.sortOrder <= shown[j].card.sortOrder {
      assert ListingOrder(shown[i]) <= ListingOrder(shown[j]);
    }
  }

  /** Which of these links no live product answers. */
  ghost function Unanswered(refs: seq<OfferRef>, live: seq<Product>): set<int>
    requires forall j :: 0 <= j < |live| ==> live[j].source.Live?
  {
    set i | 0 <= i < |refs| && forall j :: 0 <= j < |live| ==> RefOf(live[j]) != refs[i]
  }

  lemma OfferedIsEvidence(live: seq<Product>, ref: OfferRef)
    requires forall j :: 0 <= j < |live| ==> live[j].source.Live?
    ensures ref in Resolve(live) <==> exists j :: 0 <= j < |live| && RefOf(live[j]) == ref
  {
    EvidenceIsLastOffer(live, ref);
    if j :| 0 <= j < |live| && RefOf(live[j]) == ref {
      var i := FindLast(live, ref, j);
    }
  }

  lemma {:induction false} FindLast(live: seq<Product>, ref: OfferRef, j: nat) returns (i: nat)
    requires (forall k :: 0 <= k < |live| ==> live[k].source.Live?) && j < |live| && RefOf(live[j]) == ref
    ensures LastOffer(live, i, ref)
    decreases |live| - j
  {
    if k :| j < k < |live| && RefOf(live[k]) == ref {
      i := FindLast(live, ref, k);
    } else {
      i := j;
    }
  }

  lemma {:induction false} MissingAreUnanswered(refs: seq<OfferRef>, live: seq<Product>)
    requires forall j :: 0 <= j < |live| ==> live[j].source.Live?
    ensures Missing(refs, Resolve(live)) == |Unanswered(refs, live)|
  {
    hide Resolve, RefOf;
    if refs == [] {
      assert Unanswered(refs, live) == {};
    } else {
      var n := |refs| - 1;
      MissingAreUnanswered(refs[..n], live);
      OfferedIsEvidence(live, refs[n]);
      assert Unanswered(refs, live) == Unanswered(refs[..n], live) + (if refs[n] in Resolve(live) then {} else {n});
      assert n !in Unanswered(refs[..n], live);
    }
  }

  /** The storefront of a valid document, told from its listings and the live products. It is refused exactly
      when something is shown and a live product has no valid reference. Otherwise it shows every visible,
      priced listing once, by sort order, with its own content and price and the stock its links tell, and
      counts the links that no live product answers; it is partial exactly if there are any or the source
      says so. */
  lemma StorefrontShows(rules: CurationRules, d: Document, products: seq<Product>, partial: bool) returns (shown: seq<Listing>)
    requires ValidDocument(rules, d)
    ensures ShownOf(shown, d)
    ensures var live := LiveProducts(products);
      match ReadStorefront(rules, d, products, partial)
      case Err(_) => shown != [] && !RefsValid(rules, live)
      case Ok(r) =>
        && (shown != [] ==> RefsValid(rules, live))
        && r.revision == d.revision && |r.items| == |shown|
        && (forall i :: 0 <= i < |shown| ==>
              && r.items[i].id == shown[i].card.id && r.items[i].content == shown[i].card.content
              && shown[i].card.price == Some(r.items[i].price)
              && TellsStock(r.items[i].availability, shown[i].refs, live))
        && r.unresolved == |Unanswered(RefsOf(shown), live)|
        && r.sourcePartial == (partial && shown != [])
        && r.partial == (r.sourcePartial || r.unresolved > 0)
        && r.state == if shown == [] then EmptyState else if r.partial then PartialState else Ready
  {
    hide ValidCards, VisibleListings, AvailabilityOf, Distinct, ValidRefs, TellsStock, Resolve, Missing, RefsValid, ShownOf, LiveProducts, Unanswered;
    VisibleAreShown(d);
    shown := VisibleListings(d);
    var live := LiveProducts(products);
    MissingAreUnanswered(RefsOf(shown), live);
    forall i | 0 <= i < |shown| ensures TellsStock(AvailabilityOf(shown[i].refs, Resolve(live)), shown[i].refs, live) {
      AvailabilityTellsStock(shown[i].refs, live);
    }
    forall i | 0 <= i < |shown| ensures shown[i].card.price.Some? {
      ShownIsPriced(shown, d, i);
    }
    if shown == [] {
      NothingIsUnanswered(live);
    }
  }

  lemma ShownIsPriced(shown: seq<Listing>, d: Document, i: nat)
    requires ShownOf(shown, d) && i < |shown|
    ensures shown[i].card.price.Some?
  {
    assert shown[i] in shown;
  }

  lemma NothingIsUnanswered(live: seq<Product>)
    requires forall j :: 0 <= j < |live| ==> live[j].source.Live?
    ensures RefsOf([]) == [] && |Unanswered([], live)| == 0
  {
    assert Unanswered([], live) == {};
  }
}
