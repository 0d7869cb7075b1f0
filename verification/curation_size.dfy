/** The size limit of 1,000,000 bytes, measured on the JSON of a save request and then on the JSON of the
    document it becomes. */
module CurationSize {
  import opened Common
  import opened OfferKeys
  import opened Curation
  import opened CurationWorkspace

  const MAX_BYTES := 1_000_000

  /** Bytes of a listing's JSON without its offers, and of a product id's JSON without its quotes; they
      are the same in a request and in a document. */
  datatype Sizes = Sizes(card: Card -> nat, id: Bytes -> nat)

  /** `{"supplier":"...","supplier_product_id":"..."}`. */
  function RefBytes(sizes: Sizes, ref: OfferRef): nat { 40 + |SupplierName(ref.supplier)| + sizes.id(ref.productId) }

  /** A quoted key; its characters need no escapes. */
  function KeyBytes(key: string): nat { |key| + 2 }

  /** The elements of a JSON array and the commas between them. */
  function Separated(total: nat, count: nat): nat { if count == 0 then 0 else total + count - 1 }

  function RefTotal(sizes: Sizes, refs: seq<OfferRef>): nat {
    if refs == [] then 0 else RefTotal(sizes, refs[..|refs| - 1]) + RefBytes(sizes, refs[|refs| - 1])
  }

  function KeyTotal(keys: seq<string>): nat {
    if keys == [] then 0 else KeyTotal(keys[..|keys| - 1]) + KeyBytes(keys[|keys| - 1])
  }

  function ListingTotal(sizes: Sizes, listings: seq<Listing>): nat {
    if listings == [] then 0
    else
      var last := listings[|listings| - 1];
      ListingTotal(sizes, listings[..|listings| - 1]) + sizes.card(last.card) + Separated(RefTotal(sizes, last.refs), |last.refs|)
  }

  function ViewTotal(sizes: Sizes, views: seq<ListingView>): nat {
    if views == [] then 0
    else
      var last := views[|views| - 1];
      ViewTotal(sizes, views[..|views| - 1]) + sizes.card(last.card) + Separated(KeyTotal(last.keys), |last.keys|)
  }

  function Digits(n: nat): nat { if n < 10 then 1 else Digits(n / 10) + 1 }

  /** `{"revision":...,"listings":[...]}`. */
  function DocumentBytes(sizes: Sizes, d: Document): nat {
    27 + Digits(d.revision) + Separated(ListingTotal(sizes, d.listings), |d.listings|)
  }

  /** `{"expected_revision":...,"listings":[...]}`. */
  function RequestBytes(sizes: Sizes, r: SaveRequest): nat {
    36 + Digits(r.expected) + Separated(ViewTotal(sizes, r.listings), |r.listings|)
  }

  /** The rules with both limits measured. */
  ghost function Measured(sizes: Sizes, keys: KeyRules, names: iset<Text>, descriptions: iset<Text>): CurationRules {
    CurationRules(keys, (iset d: Document | DocumentBytes(sizes, d) <= MAX_BYTES), (iset r: SaveRequest | RequestBytes(sizes, r) <= MAX_BYTES),
                  names, descriptions)
  }

  /** By how much an offer reference is longer than its key. */
  function RefGrowth(sizes: Sizes, ref: OfferRef): int { RefBytes(sizes, ref) - KeyBytes(EncodeOfferKey(ref)) }

  function Growth(sizes: Sizes, refs: seq<OfferRef>): int {
    if refs == [] then 0 else Growth(sizes, refs[..|refs| - 1]) + RefGrowth(sizes, refs[|refs| - 1])
  }

  lemma {:induction false} GrowthOfConcat(sizes: Sizes, a: seq<OfferRef>, b: seq<OfferRef>)
    ensures Growth(sizes, a + b) == Growth(sizes, a) + Growth(sizes, b)
  {
    if b == [] {
      assert a + b == a;
    } else {
      GrowthOfConcat(sizes, a, b[..|b| - 1]);
      assert (a + b)[..|a + b| - 1] == a + b[..|b| - 1];
    }
  }

  lemma {:induction false} RefsGrow(sizes: Sizes, refs: seq<OfferRef>)
    ensures RefTotal(sizes, refs) == KeyTotal(Keys(refs)) + Growth(sizes, refs)
  {
    hide EncodeOfferKey;
    if refs != [] {
      RefsGrow(sizes, refs[..|refs| - 1]);
      assert Keys(refs)[..|refs| - 1] == Keys(refs[..|refs| - 1]);
    }
  }

  lemma {:induction false} ListingsGrow(sizes: Sizes, listings: seq<Listing>)
    ensures ListingTotal(sizes, listings) == ViewTotal(sizes, Views(listings)) + Growth(sizes, RefsOf(listings))
  {
    hide RefTotal, KeyTotal, RefGrowth, Keys;
    if listings != [] {
      var front, last := listings[..|listings| - 1], listings[|listings| - 1];
      ListingsGrow(sizes, front);
      RefsGrow(sizes, last.refs);
      GrowthOfConcat(sizes, RefsOf(front), last.refs);
      assert Views(listings)[..|listings| - 1] == Views(front);
    }
  }

  /** How far the document is from its request, exactly. */
  lemma DocumentGrows(sizes: Sizes, expected: nat, listings: seq<Listing>)
    ensures DocumentBytes(sizes, Document(expected + 1, listings))
            == RequestBytes(sizes, SaveRequest(expected, Views(listings))) + Growth(sizes, RefsOf(listings))
               + Digits(expected + 1) - Digits(expected) - 9
  {
    ListingsGrow(sizes, listings);
    if listings == [] {
      assert Growth(sizes, RefsOf(listings)) == 0;
    }
    hide ListingTotal, ViewTotal, Growth, Digits, RefsOf;
  }

  lemma {:induction false} ViewsOfDecoded(rules: KeyRules, views: seq<ListingView>)
    requires DecodeListings(rules, views).Ok?
    ensures Views(DecodeListings(rules, views).value) == views
  {
    hide DecodeListings, Keys;
    ListingsComeBack(rules, views);
    var listings := DecodeListings(rules, views).value;
    assert forall i :: 0 <= i < |listings| ==> ViewOf(listings[i]) == views[i];
  }

  /** So a valid request has an oversized document exactly in this window below the limit. */
  lemma OversizedExactlyInWindow(sizes: Sizes, keys: KeyRules, names: iset<Text>, descriptions: iset<Text>, r: SaveRequest)
    requires ValidRequest(Measured(sizes, keys, names, descriptions), r) && DecodeListings(keys, r.listings).Ok?
    ensures var rules, listings := Measured(sizes, keys, names, descriptions), DecodeListings(keys, r.listings).value;
      var bytes := RequestBytes(sizes, r);
      && bytes <= MAX_BYTES
      && (!ValidDocument(rules, Document(r.expected + 1, listings)) <==>
            MAX_BYTES < bytes + Growth(sizes, RefsOf(listings)) + Digits(r.expected + 1) - Digits(r.expected) - 9)
  {
    var rules, listings := Measured(sizes, keys, names, descriptions), DecodeListings(keys, r.listings).value;
    ViewsOfDecoded(keys, r.listings);
    DocumentGrows(sizes, r.expected, listings);
    OnlySizeCanRefuse(rules, r);
    hide ValidDocument, DecodeListings, RequestBytes, DocumentBytes, Growth, Digits, ValidCards, ValidKeys, RefsOf, Views;
  }

  // ---------------------------------------------------------------------------------------------
  // A request in the window

  /** Listings of one offer each. */
  function OneOfferEach(cards: seq<Card>, refs: seq<OfferRef>): (r: seq<Listing>)
    requires |cards| == |refs|
    ensures |r| == |cards| && forall i :: 0 <= i < |r| ==> r[i] == Listing(cards[i], [refs[i]])
  {
    if cards == [] then []
    else OneOfferEach(cards[..|cards| - 1], refs[..|refs| - 1]) + [Listing(cards[|cards| - 1], [refs[|refs| - 1]])]
  }

  lemma {:induction false} RefsOfOneEach(cards: seq<Card>, refs: seq<OfferRef>)
    requires |cards| == |refs|
    ensures RefsOf(OneOfferEach(cards, refs)) == refs
    ensures CardsOf(OneOfferEach(cards, refs)) == cards
  {
    if refs != [] {
      var cs, rs := cards[..|cards| - 1], refs[..|refs| - 1];
      RefsOfOneEach(cs, rs);
      assert OneOfferEach(cards, refs)[..|refs| - 1] == OneOfferEach(cs, rs);
      assert refs == rs + [refs[|refs| - 1]];
    }
  }

  /** Two-byte ids without escapes, and 1,970 bytes for everything else in a listing. */
  predicate Uniform(sizes: Sizes, cards: seq<Card>, refs: seq<OfferRef>) {
    && |cards| == |refs|
    && (forall i :: 0 <= i < |cards| ==> sizes.card(cards[i]) == 1_970)
    && (forall i :: 0 <= i < |refs| ==> |refs[i].productId| == 2 && sizes.id(refs[i].productId) == 2)
  }

  lemma ShortKey(ref: OfferRef)
    requires |ref.productId| == 2
    ensures |EncodeOfferKey(ref)| == |SupplierName(ref.supplier)| + 4 && 6 <= |SupplierName(ref.supplier)| <= 9
  {
    SextetCount(ref.productId);
    hide Sextets;
  }

  lemma {:induction false} UniformTotals(sizes: Sizes, cards: seq<Card>, refs: seq<OfferRef>)
    requires Uniform(sizes, cards, refs)
    ensures ViewTotal(sizes, Views(OneOfferEach(cards, refs))) <= 1_985 * |cards|
    ensures 2_018 * |cards| <= ListingTotal(sizes, OneOfferEach(cards, refs))
  {
    hide EncodeOfferKey, SupplierName;
    if cards != [] {
      var n := |cards| - 1;
      var front := OneOfferEach(cards[..n], refs[..n]);
      UniformTotals(sizes, cards[..n], refs[..n]);
      assert OneOfferEach(cards, refs)[..n] == front;
      assert Views(OneOfferEach(cards, refs))[..n] == Views(front);
      ShortKey(refs[n]);
      OneOf(sizes, refs[n]);
    }
  }

  lemma OneOf(sizes: Sizes, ref: OfferRef)
    ensures RefTotal(sizes, [ref]) == RefBytes(sizes, ref) && KeyTotal(Keys([ref])) == KeyBytes(EncodeOfferKey(ref))
  {
    hide EncodeOfferKey;
    assert [ref][..0] == [] && Keys([ref])[..0] == [];
  }

  lemma UniformBytes(sizes: Sizes, cards: seq<Card>, refs: seq<OfferRef>)
    requires Uniform(sizes, cards, refs) && |cards| == MAX_LISTINGS
    ensures var listings := OneOfferEach(cards, refs);
      && RequestBytes(sizes, SaveRequest(0, Views(listings))) <= MAX_BYTES
      && MAX_BYTES < DocumentBytes(sizes, Document(1, listings))
  {
    UniformTotals(sizes, cards, refs);
    assert Digits(0) == Digits(1) == 1;
    hide ViewTotal, ListingTotal, Uniform, Digits;
  }

  lemma {:induction false} KeysOfOneEach(cards: seq<Card>, refs: seq<OfferRef>)
    requires |cards| == |refs|
    ensures KeysOf(Views(OneOfferEach(cards, refs))) == Keys(refs)
    ensures ViewCards(Views(OneOfferEach(cards, refs))) == cards
  {
    hide EncodeOfferKey;
    if refs != [] {
      var n := |refs| - 1;
      var views := Views(OneOfferEach(cards, refs));
      KeysOfOneEach(cards[..n], refs[..n]);
      assert OneOfferEach(cards, refs)[..n] == OneOfferEach(cards[..n], refs[..n]);
      assert views[..n] == Views(OneOfferEach(cards[..n], refs[..n]));
      assert views[n].keys == Keys([refs[n]]) == [EncodeOfferKey(refs[n])];
      assert Keys(refs)[..n] == Keys(refs[..n]);
    }
  }

  lemma DistinctKeys(refs: seq<OfferRef>)
    requires Distinct(refs)
    ensures Distinct(Keys(refs))
  {
    forall i, j | 0 <= i < j < |refs| ensures Keys(refs)[i] != Keys(refs)[j] {
      if EncodeOfferKey(refs[i]) == EncodeOfferKey(refs[j]) {
        EncodingIsInjective(refs[i], refs[j]);
      }
    }
    hide EncodeOfferKey;
  }

  /** The failing case: a valid first request of five hundred small offers, whose document is past the
      limit. The table stores it, and the catalog can then no longer be read. */
  lemma OversizedRequestHidesTheCatalog(
    sizes: Sizes, keys: KeyRules, names: iset<Text>, descriptions: iset<Text>, cards: seq<Card>, refs: seq<OfferRef>)
    requires Uniform(sizes, cards, refs) && |cards| == MAX_LISTINGS && ValidCards(cards) && Distinct(refs)
    requires forall r :: r in refs ==> r.productId in keys.productIds
    ensures var rules, listings := Measured(sizes, keys, names, descriptions), OneOfferEach(cards, refs);
      var request := SaveRequest(0, Views(listings));
      && ValidRequest(rules, request)
      && DecodeListings(keys, request.listings) == Ok(listings)
      && PgSave(rules, None, 0, listings) == (Some(Document(1, listings)), Err(ContractRejected))
      && PgLoad(rules, Some(Document(1, listings))) == Err(RepositoryUnavailable)
  {
    var rules, listings := Measured(sizes, keys, names, descriptions), OneOfferEach(cards, refs);
    UniformBytes(sizes, cards, refs);
    RequestIsValid(rules, sizes, cards, refs);
    ViewsDecode(keys, listings);
    hide ValidRequest, DecodeListings, DocumentBytes, RequestBytes, ValidCards, Distinct, RefsOf, Uniform;
  }

  lemma OneKeyIsValid(card: Card, ref: OfferRef)
    requires |ref.productId| == 2
    ensures ValidKeys(ViewOf(Listing(card, [ref])))
  {
    hide EncodeOfferKey, SupplierName;
    ShortKey(ref);
  }

  lemma RequestIsValid(rules: CurationRules, sizes: Sizes, cards: seq<Card>, refs: seq<OfferRef>)
    requires Uniform(sizes, cards, refs) && ValidCards(cards) && Distinct(refs)
    requires SaveRequest(0, Views(OneOfferEach(cards, refs))) in rules.requests
    ensures ValidRequest(rules, SaveRequest(0, Views(OneOfferEach(cards, refs))))
  {
    var views := Views(OneOfferEach(cards, refs));
    KeysOfOneEach(cards, refs);
    DistinctKeys(refs);
    forall i | 0 <= i < |views| ensures ValidKeys(views[i]) {
      OneKeyIsValid(cards[i], refs[i]);
    }
    hide EncodeOfferKey, Distinct, KeysOf, ViewCards, ValidCards, ValidKeys, Uniform, Keys;
  }
}
