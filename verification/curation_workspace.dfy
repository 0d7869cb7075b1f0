/** `CatalogCurationService`: the workspace that joins the document with the current offers, and saving
    it end to end. */
module CurationWorkspace {
  import opened Common
  import opened OfferKeys
  import opened Curation
  import opened Sorting

  datatype Source = Live(supplier: Supplier) | MockSource

  /** A catalog product; the catalog contract bounds neither its id nor its texts. */
  datatype Product = Product(source: Source, id: Bytes, name: Text, description: Text, price: Money, available: nat)

  datatype Money = Money(amount: nat, currency: Text)

  datatype Offer = Offer(
    key: string,
    ref: OfferRef,
    name: Text,
    description: Text,
    price: Money,
    available: nat,
    listing: Option<Text>)

  datatype Workspace = Workspace(
    revision: nat,
    offers: seq<Offer>,
    listings: seq<ListingView>,
    unresolved: nat,
    sourcePartial: bool)

  function RefOf(p: Product): OfferRef
    requires p.source.Live?
  {
    OfferRef(p.source.supplier, p.id)
  }

  /** The products of the two live suppliers, in order. */
  function LiveProducts(products: seq<Product>): (r: seq<Product>)
    ensures forall i :: 0 <= i < |r| ==> r[i].source.Live?
  {
    if products == [] then []
    else
      LiveProducts(products[..|products| - 1])
      + (if products[|products| - 1].source.Live? then [products[|products| - 1]] else [])
  }

  /** A live product that the offer contract admits: its reference is valid, its key, name and description
      are within their limits. */
  predicate OfferFits(rules: CurationRules, p: Product) {
    p.source.Live? && RefFits(rules, RefOf(p)) && p.name in rules.offerNames && p.description in rules.offerDescriptions
  }

  ghost predicate OffersFit(rules: CurationRules, live: seq<Product>) {
    forall i :: 0 <= i < |live| ==> OfferFits(rules, live[i])
  }

  predicate RefFits(rules: CurationRules, ref: OfferRef) {
    ref.productId in rules.keys.productIds && |EncodeOfferKey(ref)| <= MAX_KEY
  }

  /** The listing that names an offer: the last one of the dictionary comprehension. */
  function AssignedTo(listings: seq<Listing>, ref: OfferRef): Option<Text> {
    if listings == [] then None
    else if ref in listings[|listings| - 1].refs then Some(listings[|listings| - 1].card.id)
    else AssignedTo(listings[..|listings| - 1], ref)
  }

  function OfferOf(listings: seq<Listing>, p: Product): Offer
    requires p.source.Live?
  {
    Offer(EncodeOfferKey(RefOf(p)), RefOf(p), p.name, p.description, p.price, p.available, AssignedTo(listings, RefOf(p)))
  }

  function OffersOf(listings: seq<Listing>, live: seq<Product>): (r: seq<Offer>)
    requires forall i :: 0 <= i < |live| ==> live[i].source.Live?
    ensures |r| == |live|
    ensures forall i :: 0 <= i < |live| ==> r[i] == OfferOf(listings, live[i])
  {
    if live == [] then []
    else OffersOf(listings, live[..|live| - 1]) + [OfferOf(listings, live[|live| - 1])]
  }

  function RefSet(refs: seq<OfferRef>): set<OfferRef> { set r | r in refs }

  function ResolvedRefs(live: seq<Product>): set<OfferRef>
    requires forall i :: 0 <= i < |live| ==> live[i].source.Live?
  {
    set i | 0 <= i < |live| :: RefOf(live[i])
  }

  function Keys(refs: seq<OfferRef>): (r: seq<string>)
    ensures |r| == |refs|
    ensures forall i :: 0 <= i < |refs| ==> r[i] == EncodeOfferKey(refs[i])
  {
    if refs == [] then [] else Keys(refs[..|refs| - 1]) + [EncodeOfferKey(refs[|refs| - 1])]
  }

  function ViewOf(l: Listing): ListingView { ListingView(l.card, Keys(l.refs)) }

  function Views(listings: seq<Listing>): (r: seq<ListingView>)
    ensures |r| == |listings| && forall i :: 0 <= i < |listings| ==> r[i] == ViewOf(listings[i])
  {
    if listings == [] then [] else Views(listings[..|listings| - 1]) + [ViewOf(listings[|listings| - 1])]
  }

  function ViewOrder(v: ListingView): nat { v.card.sortOrder }

  /** The listings as views, by sort order; distinct sort orders leave ties to nothing. */
  function SortedViews(listings: seq<Listing>): seq<ListingView> { SortBy(Views(listings), ViewOrder) }

  /** `_workspace_from`; a product id, key, name or description outside the contract raises. */
  ghost function WorkspaceFrom(rules: CurationRules, d: Document, products: seq<Product>, partial: bool)
    : Result<Workspace, CurationError>
  {
    var live := LiveProducts(products);
    if !OffersFit(rules, live) then Err(ContractRejected)
    else
      Ok(Workspace(d.revision, OffersOf(d.listings, live), SortedViews(d.listings),
                   |RefSet(RefsOf(d.listings)) - ResolvedRefs(live)|, partial))
  }

  /** The loop of `_workspace_from`: it grows the offers and the resolved set together. */
  method BuildOffers(listings: seq<Listing>, products: seq<Product>) returns (offers: seq<Offer>, resolved: set<OfferRef>)
    ensures offers == OffersOf(listings, LiveProducts(products))
    ensures resolved == ResolvedRefs(LiveProducts(products))
  {
    hide EncodeOfferKey, AssignedTo, RefOf;
    offers, resolved := [], {};
    for i := 0 to |products|
      invariant offers == OffersOf(listings, LiveProducts(products[..i]))
      invariant resolved == ResolvedRefs(LiveProducts(products[..i]))
    {
      var p := products[i];
      assert products[..i + 1][..i] == products[..i];
      if p.source.Live? {
        ghost var before := LiveProducts(products[..i]);
        assert LiveProducts(products[..i + 1]) == before + [p];
        assert (before + [p])[..|before|] == before;
        AddResolved(before, p);
        resolved := resolved + {RefOf(p)};
        offers := offers + [OfferOf(listings, p)];
      }
    }
    assert products[..|products|] == products;
  }

  lemma AddResolved(live: seq<Product>, p: Product)
    requires forall i :: 0 <= i < |live| ==> live[i].source.Live?
    requires p.source.Live?
    ensures ResolvedRefs(live + [p]) == ResolvedRefs(live) + {RefOf(p)}
  {
    var more := live + [p];
    assert RefOf(more[|live|]) == RefOf(p);
    forall r | r in ResolvedRefs(live) ensures r in ResolvedRefs(more) {
      var i :| 0 <= i < |live| && r == RefOf(live[i]);
      assert more[i] == live[i];
    }
  }

  // ---------------------------------------------------------------------------------------------
  // Saving

  /** Decoding a listing's keys, the first refusal wins. */
  function DecodeKeys(rules: KeyRules, keys: seq<string>): Result<seq<OfferRef>, CurationError> {
    if keys == [] then Ok([])
    else
      match DecodeKeys(rules, keys[..|keys| - 1])
      case Err(e) => Err(e)
      case Ok(refs) =>
        match DecodeOfferKey(rules, keys[|keys| - 1])
        case Err(_) => Err(UnknownOffer)
        case Ok(ref) => Ok(refs + [ref])
  }

  function DecodeListings(rules: KeyRules, views: seq<ListingView>): Result<seq<Listing>, CurationError> {
    if views == [] then Ok([])
    else
      var v := views[|views| - 1];
      match DecodeListings(rules, views[..|views| - 1])
      case Err(e) => Err(e)
      case Ok(listings) =>
        match DecodeKeys(rules, v.keys)
        case Err(e) => Err(e)
        case Ok(refs) => Ok(listings + [Listing(v.card, refs)])
  }

  ghost predicate RefsValid(rules: CurationRules, live: seq<Product>) {
    forall i :: 0 <= i < |live| ==> live[i].source.Live? && RefOf(live[i]).productId in rules.keys.productIds
  }

  /** `save_workspace` over the in-memory document. */
  ghost function SaveWorkspace(rules: CurationRules, d: Document, request: SaveRequest, products: seq<Product>, partial: bool)
    : (Document, Result<Workspace, CurationError>)
  {
    var live := LiveProducts(products);
    if !RefsValid(rules, live) then (d, Err(ContractRejected))
    else
      match DecodeListings(rules.keys, request.listings)
      case Err(e) => (d, Err(e))
      case Ok(listings) =>
        if !(RefSet(RefsOf(listings)) <= ResolvedRefs(live)) then (d, Err(UnknownOffer))
        else
          var (d', saved) := MemSave(rules, d, request.expected, listings);
          match saved
          case Err(e) => (d', Err(e))
          case Ok(document) => (d', WorkspaceFrom(rules, document, products, partial))
  }

  // ---------------------------------------------------------------------------------------------
  // Keys come back as they went in

  lemma {:induction false} KeysComeBack(rules: KeyRules, keys: seq<string>)
    requires DecodeKeys(rules, keys).Ok?
    ensures Keys(DecodeKeys(rules, keys).value) == keys
    ensures forall r :: r in DecodeKeys(rules, keys).value ==> r.productId in rules.productIds
  {
    hide DecodeOfferKey, EncodeOfferKey;
    if keys != [] {
      var front, last := keys[..|keys| - 1], keys[|keys| - 1];
      KeysComeBack(rules, front);
      var ref := DecodeOfferKey(rules, last).value;
      AcceptsExactlyTheImage(rules, last, ref);
      var refs := DecodeKeys(rules, keys).value;
      assert refs[..|refs| - 1] == DecodeKeys(rules, front).value;
      assert keys == front + [last];
    }
  }

  /** A decoded listing is the view's card with references that spell its keys. */
  predicate Decodes(rules: KeyRules, l: Listing, v: ListingView) {
    && l.card == v.card
    && Keys(l.refs) == v.keys
    && forall r :: r in l.refs ==> r.productId in rules.productIds
  }

  lemma ListingComesBack(rules: KeyRules, v: ListingView)
    requires DecodeKeys(rules, v.keys).Ok?
    ensures Decodes(rules, Listing(v.card, DecodeKeys(rules, v.keys).value), v)
  {
    KeysComeBack(rules, v.keys);
  }

  lemma {:induction false} ListingsComeBack(rules: KeyRules, views: seq<ListingView>)
    requires DecodeListings(rules, views).Ok?
    ensures var listings := DecodeListings(rules, views).value;
      |listings| == |views| && forall i :: 0 <= i < |listings| ==> Decodes(rules, listings[i], views[i])
  {
    hide DecodeKeys, Decodes;
    if views != [] {
      ListingsComeBack(rules, views[..|views| - 1]);
      ListingComesBack(rules, views[|views| - 1]);
    }
  }

  lemma {:induction false} KeysAreTheKeys(rules: KeyRules, listings: seq<Listing>, views: seq<ListingView>)
    requires |listings| == |views| && forall i :: 0 <= i < |listings| ==> Decodes(rules, listings[i], views[i])
    ensures Keys(RefsOf(listings)) == KeysOf(views)
  {
    if views != [] {
      var n := |views| - 1;
      KeysAreTheKeys(rules, listings[..n], views[..n]);
      hide Keys, EncodeOfferKey;
      KeysOfConcat(RefsOf(listings[..n]), listings[n].refs);
      assert Decodes(rules, listings[n], views[n]);
    } else {
      assert RefsOf(listings) == [];
    }
  }

  lemma ViewsAreTheViews(rules: KeyRules, listings: seq<Listing>, views: seq<ListingView>)
    requires |listings| == |views| && forall i :: 0 <= i < |listings| ==> Decodes(rules, listings[i], views[i])
    ensures Views(listings) == views
  {
    hide Keys, Views;
    forall i | 0 <= i < |views| ensures ViewOf(listings[i]) == views[i] {
      assert Decodes(rules, listings[i], views[i]);
    }
  }

  lemma KeysOfConcat(a: seq<OfferRef>, b: seq<OfferRef>)
    ensures Keys(a + b) == Keys(a) + Keys(b)
  {
    hide EncodeOfferKey;
  }

  lemma DistinctKeysDistinctRefs(refs: seq<OfferRef>)
    requires Distinct(Keys(refs))
    ensures Distinct(refs)
  {
    forall i, j | 0 <= i < j < |refs| ensures refs[i] != refs[j] {
      assert Keys(refs)[i] != Keys(refs)[j];
    }
  }

  lemma DecodedListingIsValid(rules: KeyRules, l: Listing, v: ListingView)
    requires Decodes(rules, l, v) && ValidKeys(v)
    ensures ValidRefs(rules, l)
  {
    assert |Keys(l.refs)| == |l.refs|;
  }

  lemma DecodedListingsAreValid(rules: KeyRules, listings: seq<Listing>, views: seq<ListingView>)
    requires |listings| == |views| && forall i :: 0 <= i < |listings| ==> Decodes(rules, listings[i], views[i])
    requires forall i :: 0 <= i < |views| ==> ValidKeys(views[i])
    ensures forall i :: 0 <= i < |listings| ==> ValidRefs(rules, listings[i])
    ensures CardsOf(listings) == ViewCards(views)
  {
    forall i | 0 <= i < |listings| ensures ValidRefs(rules, listings[i]) && listings[i].card == views[i].card {
      DecodedListingIsValid(rules, listings[i], views[i]);
    }
    hide Decodes, ValidRefs, ValidKeys;
  }

  /** For a valid request, decoding gives a document that only the size limit can refuse. */
  lemma OnlySizeCanRefuse(rules: CurationRules, request: SaveRequest)
    requires ValidRequest(rules, request) && DecodeListings(rules.keys, request.listings).Ok?
    ensures var d := Document(request.expected + 1, DecodeListings(rules.keys, request.listings).value);
      ValidDocument(rules, d) <==> d in rules.documents
  {
    hide EncodeOfferKey, DecodeListings, RefsOf, KeysOf, Distinct, Keys, ValidCards, Decodes, ValidRefs, ValidKeys, Views;
    var listings := DecodeListings(rules.keys, request.listings).value;
    ListingsComeBack(rules.keys, request.listings);
    KeysAreTheKeys(rules.keys, listings, request.listings);
    DistinctKeysDistinctRefs(RefsOf(listings));
    DecodedListingsAreValid(rules.keys, listings, request.listings);
  }

  // ---------------------------------------------------------------------------------------------
  // Each offer belongs to the one listing that names it

  lemma {:induction false} RefInSome(listings: seq<Listing>, i: nat, ref: OfferRef)
    requires i < |listings| && ref in listings[i].refs
    ensures ref in RefsOf(listings)
  {
    if i < |listings| - 1 {
      RefInSome(listings[..|listings| - 1], i, ref);
    }
  }

  lemma DistinctParts(a: seq<OfferRef>, b: seq<OfferRef>, ref: OfferRef)
    requires Distinct(a + b)
    ensures Distinct(a)
    ensures ref in a ==> ref !in b
  {
    forall i, j | 0 <= i < j < |a| ensures a[i] != a[j] {
      assert (a + b)[i] != (a + b)[j];
    }
    forall i, j | 0 <= i < |a| && 0 <= j < |b| ensures a[i] != b[j] {
      assert (a + b)[i] != (a + b)[|a| + j];
    }
  }

  /** With distinct references, the assigned listing is the one that names the offer, if any. */
  lemma {:induction false} AssignedToTheNamer(listings: seq<Listing>, i: nat, ref: OfferRef)
    requires Distinct(RefsOf(listings)) && i < |listings| && ref in listings[i].refs
    ensures AssignedTo(listings, ref) == Some(listings[i].card.id)
  {
    var n := |listings| - 1;
    DistinctParts(RefsOf(listings[..n]), listings[n].refs, ref);
    if i < n {
      RefInSome(listings[..n], i, ref);
      AssignedToTheNamer(listings[..n], i, ref);
    }
  }

  lemma {:induction false} AssignedIsANamer(listings: seq<Listing>, ref: OfferRef)
    requires AssignedTo(listings, ref).Some?
    ensures exists i :: 0 <= i < |listings| && ref in listings[i].refs && AssignedTo(listings, ref) == Some(listings[i].card.id)
  {
    var n := |listings| - 1;
    if ref !in listings[n].refs {
      AssignedIsANamer(listings[..n], ref);
      var i :| 0 <= i < n && ref in listings[..n][i].refs && AssignedTo(listings[..n], ref) == Some(listings[..n][i].card.id);
      assert listings[i].card.id == listings[..n][i].card.id;
    }
  }

  lemma KeyOfRef(refs: seq<OfferRef>, ref: OfferRef)
    ensures EncodeOfferKey(ref) in Keys(refs) <==> ref in refs
  {
    if EncodeOfferKey(ref) in Keys(refs) {
      var i :| 0 <= i < |refs| && Keys(refs)[i] == EncodeOfferKey(ref);
      EncodingIsInjective(refs[i], ref);
    }
    if ref in refs {
      var i :| 0 <= i < |refs| && refs[i] == ref;
      assert Keys(refs)[i] == EncodeOfferKey(ref);
    }
  }

  /** Over the views: an offer is assigned to a listing exactly when that listing's keys name it. */
  lemma AssignmentByKeys(rules: KeyRules, listings: seq<Listing>, views: seq<ListingView>, ref: OfferRef, id: Text)
    requires |listings| == |views| && forall i :: 0 <= i < |listings| ==> Decodes(rules, listings[i], views[i])
    requires Distinct(RefsOf(listings))
    ensures AssignedTo(listings, ref) == Some(id) <==>
            exists v :: v in views && v.card.id == id && EncodeOfferKey(ref) in v.keys
  {
    hide EncodeOfferKey, RefsOf, Distinct;
    if AssignedTo(listings, ref) == Some(id) {
      AssignedIsANamer(listings, ref);
      var i :| 0 <= i < |listings| && ref in listings[i].refs && Some(id) == Some(listings[i].card.id);
      assert Decodes(rules, listings[i], views[i]);
      KeyOfRef(listings[i].refs, ref);
      assert views[i] in views;
    }
    if v :| v in views && v.card.id == id && EncodeOfferKey(ref) in v.keys {
      var i :| 0 <= i < |views| && views[i] == v;
      assert Decodes(rules, listings[i], views[i]);
      KeyOfRef(listings[i].refs, ref);
      AssignedToTheNamer(listings, i, ref);
    }
  }

  // ---------------------------------------------------------------------------------------------
  // The end-to-end theorem

  predicate SameGoods(o: Offer, p: Product) {
    o.name == p.name && o.description == p.description && o.price == p.price && o.available == p.available
  }

  /** The workspace shows the request: the same listings with the same keys in sort order, every
      requested offer present, each live offer assigned to exactly the listing that names it. */
  ghost predicate Shows(ws: Workspace, request: SaveRequest, live: seq<Product>, partial: bool)
    requires forall i :: 0 <= i < |live| ==> live[i].source.Live?
  {
    && ws.revision == request.expected + 1 && ws.sourcePartial == partial
    && Ascending(ws.listings, ViewOrder)
    && multiset(ws.listings) == multiset(request.listings)
    && ws.unresolved == 0
    && |ws.offers| == |live|
    && forall i :: 0 <= i < |live| ==>
      && ws.offers[i].key == EncodeOfferKey(RefOf(live[i]))
      && SameGoods(ws.offers[i], live[i])
      && forall id :: ws.offers[i].listing == Some(id) <==>
                      exists v :: v in request.listings && v.card.id == id && ws.offers[i].key in v.keys
  }

  lemma OffersShowRequest(rules: CurationRules, request: SaveRequest, listings: seq<Listing>, live: seq<Product>, i: nat, id: Text)
    requires i < |live| && forall j :: 0 <= j < |live| ==> live[j].source.Live?
    requires |listings| == |request.listings| && forall j :: 0 <= j < |listings| ==> Decodes(rules.keys, listings[j], request.listings[j])
    requires Distinct(RefsOf(listings))
    ensures var offer := OffersOf(listings, live)[i];
      && offer.key == EncodeOfferKey(RefOf(live[i])) && SameGoods(offer, live[i])
      && (offer.listing == Some(id) <==> exists v :: v in request.listings && v.card.id == id && offer.key in v.keys)
  {
    hide EncodeOfferKey, RefsOf, Distinct, Decodes, AssignedTo, OffersOf;
    AssignmentByKeys(rules.keys, listings, request.listings, RefOf(live[i]), id);
    assert OffersOf(listings, live)[i] == OfferOf(listings, live[i]);
  }

  lemma SavedDocumentShowsRequest(
    rules: CurationRules, request: SaveRequest, listings: seq<Listing>, products: seq<Product>, partial: bool)
    requires ValidRequest(rules, request) && DecodeListings(rules.keys, request.listings) == Ok(listings)
    requires RefSet(RefsOf(listings)) <= ResolvedRefs(LiveProducts(products))
    requires OffersFit(rules, LiveProducts(products))
    ensures Shows(WorkspaceFrom(rules, Document(request.expected + 1, listings), products, partial).value, request, LiveProducts(products), partial)
  {
    hide EncodeOfferKey, DecodeListings, RefsOf, KeysOf, Distinct, Keys, Decodes, AssignedTo, SortBy, Views, OffersFit,
      ResolvedRefs, RefSet, Ascending, OffersOf;
    var live := LiveProducts(products);
    ListingsComeBack(rules.keys, request.listings);
    KeysAreTheKeys(rules.keys, listings, request.listings);
    ViewsAreTheViews(rules.keys, listings, request.listings);
    DistinctKeysDistinctRefs(RefsOf(listings));
    SortIsSorted(request.listings, ViewOrder);
    assert RefSet(RefsOf(listings)) - ResolvedRefs(live) == {};
    forall i, id | 0 <= i < |live|
      ensures var offer := OffersOf(listings, live)[i];
        && offer.key == EncodeOfferKey(RefOf(live[i])) && SameGoods(offer, live[i])
        && (offer.listing == Some(id) <==> exists v :: v in request.listings && v.card.id == id && offer.key in v.keys)
    {
      OffersShowRequest(rules, request, listings, live, i, id);
    }
  }

  /** The references that the listings name and no live product answers. */
  ghost function NamedButNotOffered(d: Document, live: seq<Product>): set<OfferRef>
    requires forall i :: 0 <= i < |live| ==> live[i].source.Live?
  {
    set ref | ref in RefsOf(d.listings) && forall i :: 0 <= i < |live| ==> RefOf(live[i]) != ref
  }

  /** What the workspace shows of any valid document: its listings by their keys, each offer with the listing
      that names it, and how many of the offers it names no live product answers. */
  lemma WorkspaceShowsDocument(rules: CurationRules, d: Document, products: seq<Product>, partial: bool)
    requires ValidDocument(rules, d) && OffersFit(rules, LiveProducts(products))
    ensures var live := LiveProducts(products);
      WorkspaceFrom(rules, d, products, partial).Ok?
      && var ws := WorkspaceFrom(rules, d, products, partial).value;
      && ws.revision == d.revision && ws.sourcePartial == partial
      && Ascending(ws.listings, ViewOrder) && multiset(ws.listings) == multiset(Views(d.listings))
      && ws.unresolved == |NamedButNotOffered(d, live)|
      && |ws.offers| == |live|
      && forall i :: 0 <= i < |live| ==>
        && ws.offers[i].key == EncodeOfferKey(RefOf(live[i])) && SameGoods(ws.offers[i], live[i])
        && forall id :: ws.offers[i].listing == Some(id) <==>
                        exists v :: v in Views(d.listings) && v.card.id == id && ws.offers[i].key in v.keys
  {
    hide EncodeOfferKey, RefsOf, Distinct, Keys, Decodes, AssignedTo, SortBy, Views, OffersFit, ResolvedRefs, RefSet, Ascending, OffersOf, ValidCards;
    var live := LiveProducts(products);
    var request := SaveRequest(d.revision, Views(d.listings));
    assert Distinct(RefsOf(d.listings));
    forall j | 0 <= j < |d.listings| ensures Decodes(rules.keys, d.listings[j], request.listings[j]) {
      ViewDecodes(rules.keys, d.listings[j]);
    }
    SortIsSorted(Views(d.listings), ViewOrder);
    NamedAreCounted(d, live);
    forall i, id | 0 <= i < |live|
      ensures var offer := OffersOf(d.listings, live)[i];
        && offer.key == EncodeOfferKey(RefOf(live[i])) && SameGoods(offer, live[i])
        && (offer.listing == Some(id) <==> exists v :: v in Views(d.listings) && v.card.id == id && offer.key in v.keys)
    {
      OffersShowRequest(rules, request, d.listings, live, i, id);
    }
  }

  lemma NamedAreCounted(d: Document, live: seq<Product>)
    requires forall i :: 0 <= i < |live| ==> live[i].source.Live?
    ensures RefSet(RefsOf(d.listings)) - ResolvedRefs(live) == NamedButNotOffered(d, live)
  {
  }

  lemma ViewDecodes(rules: KeyRules, l: Listing)
    requires ValidRefs(rules, l)
    ensures Decodes(rules, l, ViewOf(l))
  {
  }

  /** Saving a valid request that is accepted stores the decoded listings at the next revision and
      returns a workspace that shows the request. */
  lemma SaveReturnsTheRequest(rules: CurationRules, d: Document, request: SaveRequest, products: seq<Product>, partial: bool)
    requires ValidRequest(rules, request) && SaveWorkspace(rules, d, request, products, partial).1.Ok?
    ensures var (d', saved) := SaveWorkspace(rules, d, request, products, partial);
      && d.revision == request.expected && d'.revision == request.expected + 1
      && Ok(d'.listings) == DecodeListings(rules.keys, request.listings)
      && Shows(saved.value, request, LiveProducts(products), partial)
  {
    hide Shows, ValidRequest, ValidDocument, RefsOf, OffersFit, ResolvedRefs, RefSet, DecodeListings, OffersOf, SortedViews;
    var listings := DecodeListings(rules.keys, request.listings).value;
    SavedDocumentShowsRequest(rules, request, listings, products, partial);
  }

  /** The document is stored before the answer is built, and the answer covers every current offer: so a
      stored save is answered exactly when every live product, requested or not, fits the offer contract
      with its key, name and description. */
  lemma StoredSaveIsAnsweredExactlyWhenOffersFit(
    rules: CurationRules, d: Document, request: SaveRequest, products: seq<Product>, partial: bool)
    ensures var (d', saved) := SaveWorkspace(rules, d, request, products, partial);
      && (d' == d ==> saved.Err?)
      && (d' != d ==> (saved.Ok? <==> OffersFit(rules, LiveProducts(products))))
  {
    hide ValidDocument, RefsOf, DecodeListings, OffersFit, RefsValid;
  }

  /** When a save of a valid request is stored: the revision is current, every key decodes, every offer
      is in the current snapshot, and the document fits. */
  lemma StoredExactlyWhen(rules: CurationRules, d: Document, request: SaveRequest, products: seq<Product>, partial: bool)
    requires ValidRequest(rules, request)
    ensures var decoded := DecodeListings(rules.keys, request.listings);
      SaveWorkspace(rules, d, request, products, partial).0 != d <==>
      && RefsValid(rules, LiveProducts(products))
      && decoded.Ok?
      && RefSet(RefsOf(decoded.value)) <= ResolvedRefs(LiveProducts(products))
      && d.revision == request.expected
      && Document(request.expected + 1, decoded.value) in rules.documents
  {
    hide ValidDocument, ValidRequest, RefsOf, DecodeListings, RefsValid, WorkspaceFrom, ResolvedRefs, RefSet;
    if DecodeListings(rules.keys, request.listings).Ok? {
      OnlySizeCanRefuse(rules, request);
    }
  }

  /** Every key of the request is an offer key. */
  ghost predicate AllKeysDecode(rules: KeyRules, views: seq<ListingView>) {
    forall i, j :: 0 <= i < |views| && 0 <= j < |views[i].keys| ==> DecodeOfferKey(rules, views[i].keys[j]).Ok?
  }

  lemma {:induction false} KeysDecodeExactly(rules: KeyRules, keys: seq<string>)
    ensures DecodeKeys(rules, keys).Ok? <==> forall j :: 0 <= j < |keys| ==> DecodeOfferKey(rules, keys[j]).Ok?
    ensures DecodeKeys(rules, keys).Err? ==> DecodeKeys(rules, keys).error == UnknownOffer
  {
    hide DecodeOfferKey;
    if keys != [] {
      var front := keys[..|keys| - 1];
      KeysDecodeExactly(rules, front);
      assert forall j :: 0 <= j < |front| ==> front[j] == keys[j];
    }
  }

  lemma {:induction false} ListingsDecodeExactly(rules: KeyRules, views: seq<ListingView>)
    ensures DecodeListings(rules, views).Ok? <==> AllKeysDecode(rules, views)
    ensures DecodeListings(rules, views).Err? ==> DecodeListings(rules, views).error == UnknownOffer
  {
    hide DecodeKeys, DecodeOfferKey;
    if views != [] {
      var front, last := views[..|views| - 1], views[|views| - 1];
      ListingsDecodeExactly(rules, front);
      KeysDecodeExactly(rules, last.keys);
      assert forall i :: 0 <= i < |front| ==> front[i] == views[i];
    }
  }

  /** What a save answers, refusal by refusal in the order of the checks: a product without a valid reference,
      a key that is no offer key or an offer that is not there now, another revision, and then a document past
      its validators or, once it is stored, a product outside the offer contract. */
  lemma SaveAnswersExactly(rules: CurationRules, d: Document, request: SaveRequest, products: seq<Product>, partial: bool)
    ensures DecodeListings(rules.keys, request.listings).Ok? <==> AllKeysDecode(rules.keys, request.listings)
    ensures var answer := SaveWorkspace(rules, d, request, products, partial).1;
      var live := LiveProducts(products);
      var decoded := DecodeListings(rules.keys, request.listings);
      if !RefsValid(rules, live) then answer == Err(ContractRejected)
      else if decoded.Err? || !(RefSet(RefsOf(decoded.value)) <= ResolvedRefs(live)) then
        answer == Err(UnknownOffer)
      else if d.revision != request.expected then answer == Err(RevisionConflict)
      else if !ValidDocument(rules, Document(request.expected + 1, decoded.value)) || !OffersFit(rules, live) then
        answer == Err(ContractRejected)
      else answer == WorkspaceFrom(rules, Document(request.expected + 1, decoded.value), products, partial) && answer.Ok?
  {
    hide ValidDocument, RefsOf, DecodeListings, RefsValid, ResolvedRefs, RefSet, OffersFit, AllKeysDecode;
    ListingsDecodeExactly(rules.keys, request.listings);
  }

  lemma KeysOn(front: seq<OfferRef>, last: OfferRef)
    ensures Keys(front + [last]) == Keys(front) + [EncodeOfferKey(last)]
  {
    hide EncodeOfferKey;
    assert (front + [last])[..|front|] == front;
  }

  lemma KeyDecodesOn(rules: KeyRules, front: seq<string>, key: string)
    requires DecodeKeys(rules, front).Ok? && DecodeOfferKey(rules, key).Ok?
    ensures DecodeKeys(rules, front + [key]) == Ok(DecodeKeys(rules, front).value + [DecodeOfferKey(rules, key).value])
  {
    hide DecodeOfferKey;
    assert (front + [key])[..|front|] == front;
  }

  lemma {:induction false} KeysDecode(rules: KeyRules, refs: seq<OfferRef>)
    requires forall r :: r in refs ==> r.productId in rules.productIds
    ensures DecodeKeys(rules, Keys(refs)) == Ok(refs)
  {
    hide DecodeOfferKey, EncodeOfferKey, Keys, DecodeKeys;
    if refs == [] {
      NoKeysDecode(rules);
    } else {
      var front, last := refs[..|refs| - 1], refs[|refs| - 1];
      KeysDecode(rules, front);
      KeyRoundTrip(rules, last);
      KeysOn(front, last);
      KeyDecodesOn(rules, Keys(front), EncodeOfferKey(last));
      assert refs == front + [last];
    }
  }

  lemma NoKeysDecode(rules: KeyRules)
    ensures DecodeKeys(rules, Keys([])) == Ok([])
  {
  }

  lemma ViewsOn(front: seq<Listing>, last: Listing)
    ensures Views(front + [last]) == Views(front) + [ViewOf(last)]
  {
    assert (front + [last])[..|front|] == front;
  }

  lemma DecodesOn(rules: KeyRules, front: seq<ListingView>, v: ListingView)
    requires DecodeListings(rules, front).Ok? && DecodeKeys(rules, v.keys).Ok?
    ensures DecodeListings(rules, front + [v])
            == Ok(DecodeListings(rules, front).value + [Listing(v.card, DecodeKeys(rules, v.keys).value)])
  {
    hide DecodeKeys;
    assert (front + [v])[..|front|] == front;
  }

  /** Listings with acceptable references come back from their own views. */
  lemma {:induction false} ViewsDecode(rules: KeyRules, listings: seq<Listing>)
    requires forall l :: l in listings ==> forall r :: r in l.refs ==> r.productId in rules.productIds
    ensures DecodeListings(rules, Views(listings)) == Ok(listings)
  {
    hide DecodeKeys, Keys, Views, DecodeListings;
    if listings == [] {
      NothingDecodes(rules);
    } else {
      var front, last := listings[..|listings| - 1], listings[|listings| - 1];
      ViewsDecode(rules, front);
      KeysDecode(rules, last.refs);
      ViewsOn(front, last);
      DecodesOn(rules, Views(front), ViewOf(last));
      assert listings == front + [last];
    }
  }

  lemma NothingDecodes(rules: KeyRules)
    ensures DecodeListings(rules, Views([])) == Ok([])
  {
  }

  /** The document of a first save with one listing of one offer. */
  function OneListing(card: Card, p: Product): Document
    requires p.source.Live?
  {
    Document(1, [Listing(card, [RefOf(p)])])
  }

  /** And the request for it. */
  function OneListingRequest(card: Card, p: Product): SaveRequest
    requires p.source.Live?
  {
    SaveRequest(0, Views(OneListing(card, p).listings))
  }

  lemma OneListingDecodes(rules: KeyRules, card: Card, p: Product)
    requires p.source.Live? && p.id in rules.productIds
    ensures DecodeListings(rules, OneListingRequest(card, p).listings) == Ok(OneListing(card, p).listings)
    ensures RefsOf(OneListing(card, p).listings) == [RefOf(p)]
  {
    hide EncodeOfferKey, DecodeListings;
    var listings := OneListing(card, p).listings;
    ViewsDecode(rules, listings);
    assert listings[..0] == [];
  }

  lemma OneListingIsValid(rules: CurationRules, card: Card, p: Product)
    requires ValidCard(card) && p.source.Live? && RefFits(rules, RefOf(p)) && OneListing(card, p) in rules.documents
    ensures ValidDocument(rules, OneListing(card, p))
  {
    hide ValidCard, EncodeOfferKey;
    var d := OneListing(card, p);
    assert d.listings[..0] == [] && RefsOf(d.listings) == [RefOf(p)];
    hide RefsOf, CardsOf;
  }

  lemma OneRequestIsValid(rules: CurationRules, card: Card, p: Product)
    requires ValidCard(card) && p.source.Live? && RefFits(rules, RefOf(p)) && OneListingRequest(card, p) in rules.requests
    ensures ValidRequest(rules, OneListingRequest(card, p))
  {
    KeyIsNotEmpty(RefOf(p));
    hide ValidCard, EncodeOfferKey;
    var views := OneListingRequest(card, p).listings;
    assert views[..0] == [] && KeysOf(views) == views[0].keys;
    hide KeysOf, ViewCards;
  }

  lemma KeyIsNotEmpty(ref: OfferRef)
    ensures 1 <= |EncodeOfferKey(ref)|
  {
  }

  /** The failing case: a valid first save of one live offer, while some live product is outside the offer
      contract, is stored and then refused. */
  lemma SavedThenRefused(rules: CurationRules, card: Card, p: Product, products: seq<Product>)
    requires ValidCard(card) && p in LiveProducts(products) && p.source.Live? && RefFits(rules, RefOf(p))
    requires OneListing(card, p) in rules.documents && OneListingRequest(card, p) in rules.requests
    requires RefsValid(rules, LiveProducts(products)) && !OffersFit(rules, LiveProducts(products))
    ensures ValidRequest(rules, OneListingRequest(card, p))
    ensures SaveWorkspace(rules, NO_DOCUMENT, OneListingRequest(card, p), products, false)
            == (OneListing(card, p), Err(ContractRejected))
  {
    OneRequestIsValid(rules, card, p);
    OneListingIsValid(rules, card, p);
    OneListingDecodes(rules.keys, card, p);
    hide ValidDocument, ValidRequest, DecodeListings, RefsOf, OffersFit, EncodeOfferKey, ValidCard, RefsValid, ResolvedRefs, LiveProducts;
    LiveIsResolved(LiveProducts(products), p);
  }

  lemma LiveIsResolved(live: seq<Product>, p: Product)
    requires p in live && forall i :: 0 <= i < |live| ==> live[i].source.Live?
    ensures p.source.Live? && RefSet([RefOf(p)]) <= ResolvedRefs(live)
  {
    var i :| 0 <= i < |live| && live[i] == p;
    assert RefOf(live[i]) in ResolvedRefs(live);
  }

  lemma TwoLive(p: Product, q: Product)
    requires p.source.Live? && q.source.Live?
    ensures LiveProducts([p]) == [p] && LiveProducts([p, q]) == [p, q]
  {
    assert [p, q][..1] == [p] && [p][..0] == [];
    assert LiveProducts([p]) == LiveProducts([]) + [p];
  }

  /** For instance beside another product whose id is too long for a key. */
  lemma OverlongKeyIsSavedThenRefused(rules: CurationRules, card: Card, p: Product, other: Product)
    requires ValidCard(card) && OfferFits(rules, p)
    requires OneListing(card, p) in rules.documents && OneListingRequest(card, p) in rules.requests
    requires other.source.Live? && other.id in rules.keys.productIds && |other.id| > 378
    ensures ValidRequest(rules, OneListingRequest(card, p))
    ensures SaveWorkspace(rules, NO_DOCUMENT, OneListingRequest(card, p), [p, other], false)
            == (OneListing(card, p), Err(ContractRejected))
  {
    hide SaveWorkspace, EncodeOfferKey, ValidCard, ValidRequest, LiveProducts, OneListing, OneListingRequest;
    KeyFitsExactly(RefOf(other));
    TwoLive(p, other);
    assert !OfferFits(rules, [p, other][1]);
    SavedThenRefused(rules, card, p, [p, other]);
  }

  /** Or when the saved offer's own name or description, which no request carries, is past its limit. */
  lemma OverlongTextIsSavedThenRefused(rules: CurationRules, card: Card, p: Product)
    requires ValidCard(card) && p.source.Live? && RefFits(rules, RefOf(p))
    requires OneListing(card, p) in rules.documents && OneListingRequest(card, p) in rules.requests
    requires p.name !in rules.offerNames || p.description !in rules.offerDescriptions
    ensures ValidRequest(rules, OneListingRequest(card, p))
    ensures SaveWorkspace(rules, NO_DOCUMENT, OneListingRequest(card, p), [p], false)
            == (OneListing(card, p), Err(ContractRejected))
  {
    hide SaveWorkspace, EncodeOfferKey, ValidCard, ValidRequest, LiveProducts, OneListing, OneListingRequest;
    TwoLive(p, p);
    assert !OfferFits(rules, [p][0]);
    SavedThenRefused(rules, card, p, [p]);
  }

  // ---------------------------------------------------------------------------------------------
  // Over the table

  /** `save_workspace` over the PostgreSQL row. */
  ghost function SaveInTable(rules: CurationRules, row: Option<Document>, request: SaveRequest, products: seq<Product>, partial: bool)
    : (Option<Document>, Result<Workspace, CurationError>)
  {
    var live := LiveProducts(products);
    if !RefsValid(rules, live) then (row, Err(ContractRejected))
    else
      match DecodeListings(rules.keys, request.listings)
      case Err(e) => (row, Err(e))
      case Ok(listings) =>
        if !(RefSet(RefsOf(listings)) <= ResolvedRefs(live)) then (row, Err(UnknownOffer))
        else
          var (row', saved) := PgSave(rules, row, request.expected, listings);
          match saved
          case Err(e) => (row', Err(e))
          case Ok(document) => (row', WorkspaceFrom(rules, document, products, partial))
  }

  /** The request gets as far as the repository. */
  ghost predicate ReachesSave(rules: CurationRules, request: SaveRequest, products: seq<Product>) {
    && RefsValid(rules, LiveProducts(products))
    && DecodeListings(rules.keys, request.listings).Ok?
    && RefSet(RefsOf(DecodeListings(rules.keys, request.listings).value)) <= ResolvedRefs(LiveProducts(products))
  }

  /** Over the table a save answers as over the document, so `SaveReturnsTheRequest` holds there too; and
      for a valid request the two part exactly when the save reaches the write at the current revision
      with a document past the size limit. */
  lemma TableSavesAlike(
    rules: CurationRules, row: Option<Document>, d: Document, request: SaveRequest, products: seq<Product>, partial: bool)
    requires Represents(rules, row, d) && ValidRequest(rules, request)
    ensures var (row', answer) := SaveInTable(rules, row, request, products, partial);
      var (d', expected) := SaveWorkspace(rules, d, request, products, partial);
      && answer == expected
      && (Represents(rules, row', d') <==>
            !(ReachesSave(rules, request, products) && d.revision == request.expected
              && Document(request.expected + 1, DecodeListings(rules.keys, request.listings).value) !in rules.documents))
  {
    hide ValidDocument, ValidRequest, RefsOf, DecodeListings, RefsValid, WorkspaceFrom, ResolvedRefs, RefSet, Represents, PgSave, MemSave;
    if DecodeListings(rules.keys, request.listings).Ok? {
      OnlySizeCanRefuse(rules, request);
      TableRefinesDocument(rules, row, d, request.expected, DecodeListings(rules.keys, request.listings).value);
    }
  }

  /** When the table stores a save: as `StoredExactlyWhen` says, but without the size limit. */
  lemma TableStoresExactlyWhen(
    rules: CurationRules, row: Option<Document>, d: Document, request: SaveRequest, products: seq<Product>, partial: bool)
    requires Represents(rules, row, d)
    ensures SaveInTable(rules, row, request, products, partial).0 != row <==>
            ReachesSave(rules, request, products) && d.revision == request.expected
  {
    hide ValidDocument, RefsOf, DecodeListings, RefsValid, WorkspaceFrom, ResolvedRefs, RefSet;
  }
}
