/** The seller catalog of `catalog/curation/`: one versioned document, its two repositories, and the
    admin workspace that joins it with the supplier offers. */
module Curation {
  import opened Common
  import opened OfferKeys

  const MAX_LISTINGS := 500
  const MAX_OFFERS := 32

  datatype Price = Price(amount: nat, vnd: bool)

  /** What a listing says apart from its offers; `content` stands for its validated texts. */
  datatype Card = Card(id: Text, content: Text, visible: bool, sortOrder: nat, price: Option<Price>)

  /** A persisted listing. */
  datatype Listing = Listing(card: Card, refs: seq<OfferRef>)

  /** A listing as the admin API takes it and shows it, by offer keys. */
  datatype ListingView = ListingView(card: Card, keys: seq<string>)

  datatype Document = Document(revision: nat, listings: seq<Listing>)

  datatype SaveRequest = SaveRequest(expected: nat, listings: seq<ListingView>)

  /** The acceptable product ids, the documents and requests whose JSON is within the size limit, and the
      supplier texts that are short enough for an offer (255 and 4000 characters). */
  datatype CurationRules = CurationRules(
    keys: KeyRules,
    documents: iset<Document>,
    requests: iset<SaveRequest>,
    offerNames: iset<Text>,
    offerDescriptions: iset<Text>)

  const NO_DOCUMENT := Document(0, [])

  predicate ValidCard(c: Card) {
    && (c.price.Some? ==> c.price.value.vnd)
    && (c.visible ==> c.price.Some?)
  }

  function RefsOf(ls: seq<Listing>): seq<OfferRef> {
    if ls == [] then [] else RefsOf(ls[..|ls| - 1]) + ls[|ls| - 1].refs
  }

  function KeysOf(vs: seq<ListingView>): seq<string> {
    if vs == [] then [] else KeysOf(vs[..|vs| - 1]) + vs[|vs| - 1].keys
  }

  function CardsOf(ls: seq<Listing>): (r: seq<Card>)
    ensures |r| == |ls| && forall i :: 0 <= i < |ls| ==> r[i] == ls[i].card
  {
    if ls == [] then [] else CardsOf(ls[..|ls| - 1]) + [ls[|ls| - 1].card]
  }

  function ViewCards(vs: seq<ListingView>): (r: seq<Card>)
    ensures |r| == |vs| && forall i :: 0 <= i < |vs| ==> r[i] == vs[i].card
  {
    if vs == [] then [] else ViewCards(vs[..|vs| - 1]) + [vs[|vs| - 1].card]
  }

  /** The checks on cards that documents and requests share: valid, few, and with unique ids and sort
      orders. */
  predicate ValidCards(cards: seq<Card>) {
    && |cards| <= MAX_LISTINGS
    && (forall i :: 0 <= i < |cards| ==> ValidCard(cards[i]))
    && (forall i, j :: 0 <= i < j < |cards| ==> cards[i].id != cards[j].id && cards[i].sortOrder != cards[j].sortOrder)
  }

  predicate ValidRefs(rules: KeyRules, l: Listing) {
    1 <= |l.refs| <= MAX_OFFERS && forall r :: r in l.refs ==> r.productId in rules.productIds
  }

  predicate ValidKeys(v: ListingView) {
    1 <= |v.keys| <= MAX_OFFERS && forall k :: k in v.keys ==> 1 <= |k| <= MAX_KEY
  }

  /** The field and model validators of a document. */
  predicate ValidDocument(rules: CurationRules, d: Document) {
    && ValidCards(CardsOf(d.listings))
    && (forall i :: 0 <= i < |d.listings| ==> ValidRefs(rules.keys, d.listings[i]))
    && Distinct(RefsOf(d.listings))
    && d in rules.documents
  }

  predicate ValidRequest(rules: CurationRules, r: SaveRequest) {
    && ValidCards(ViewCards(r.listings))
    && (forall i :: 0 <= i < |r.listings| ==> ValidKeys(r.listings[i]))
    && Distinct(KeysOf(r.listings))
    && r in rules.requests
  }

  // ---------------------------------------------------------------------------------------------
  // Two repositories

  datatype CurationError = RevisionConflict | RepositoryUnavailable | UnknownOffer | ContractRejected

  function MemSave(rules: CurationRules, d: Document, expected: nat, listings: seq<Listing>)
    : (Document, Result<Document, CurationError>)
  {
    var next := Document(expected + 1, listings);
    if d.revision != expected then (d, Err(RevisionConflict))
    else if !ValidDocument(rules, next) then (d, Err(ContractRejected))
    else (next, Ok(next))
  }

  function PgLoad(rules: CurationRules, row: Option<Document>): Result<Document, CurationError> {
    if row.None? then Ok(NO_DOCUMENT)
    else if !ValidDocument(rules, row.value) then Err(RepositoryUnavailable)
    else Ok(row.value)
  }

  /** The statement of `_execute_save`: insert if there is no row yet, or update the expected revision. */
  function PgWrite(row: Option<Document>, expected: nat, listings: seq<Listing>): (Option<Document>, bool) {
    var written := if expected == 0 then row.None? else row.Some? && row.value.revision == expected;
    (if written then Some(Document(expected + 1, listings)) else row, written)
  }

  /** The transaction commits before the returned document is validated. */
  function PgSave(rules: CurationRules, row: Option<Document>, expected: nat, listings: seq<Listing>)
    : (Option<Document>, Result<Document, CurationError>)
  {
    var next := Document(expected + 1, listings);
    var (row', written) := PgWrite(row, expected, listings);
    if !written then (row', Err(RevisionConflict))
    else if !ValidDocument(rules, next) then (row', Err(ContractRejected))
    else (row', Ok(next))
  }

  /** The optional row stands for the document: no row is revision 0, a row has a positive revision. */
  ghost predicate Represents(rules: CurationRules, row: Option<Document>, d: Document) {
    if row.None? then d == NO_DOCUMENT else d == row.value && 0 < d.revision && ValidDocument(rules, d)
  }

  /** A save that reaches the write and whose document is not valid; for a valid request only the size
      limit can make it so. */
  ghost predicate WritesInvalid(rules: CurationRules, d: Document, expected: nat, listings: seq<Listing>) {
    d.revision == expected && !ValidDocument(rules, Document(expected + 1, listings))
  }

  /** The table refines the in-memory document: reads and replies always agree, and the stores stay
      related exactly when the save does not write a document past the validators. */
  lemma TableRefinesDocument(rules: CurationRules, row: Option<Document>, d: Document, expected: nat, listings: seq<Listing>)
    requires Represents(rules, row, d)
    ensures PgLoad(rules, row) == Ok(d)
    ensures PgSave(rules, row, expected, listings).1 == MemSave(rules, d, expected, listings).1
    ensures Represents(rules, PgSave(rules, row, expected, listings).0, MemSave(rules, d, expected, listings).0)
            <==> !WritesInvalid(rules, d, expected, listings)
  {
    hide ValidDocument;
  }

  /** What the exception costs: the refused save has replaced the row, and the catalog cannot be read
      any more, while the in-memory document is unchanged. */
  lemma OversizedSaveHidesTheCatalog(rules: CurationRules, row: Option<Document>, d: Document, expected: nat, listings: seq<Listing>)
    requires Represents(rules, row, d) && WritesInvalid(rules, d, expected, listings)
    ensures PgLoad(rules, PgSave(rules, row, expected, listings).0) == Err(RepositoryUnavailable)
    ensures MemSave(rules, d, expected, listings) == (d, Err(ContractRejected))
  {
    hide ValidDocument;
  }

  datatype SaveCall = SaveCall(expected: nat, listings: seq<Listing>)

  ghost function Saved(rules: CurationRules, history: seq<SaveCall>): Document {
    if history == [] then NO_DOCUMENT
    else
      var last := history[|history| - 1];
      MemSave(rules, Saved(rules, history[..|history| - 1]), last.expected, last.listings).0
  }

  ghost function TableSaved(rules: CurationRules, history: seq<SaveCall>): Option<Document> {
    if history == [] then None
    else
      var last := history[|history| - 1];
      PgSave(rules, TableSaved(rules, history[..|history| - 1]), last.expected, last.listings).0
  }

  /** Some save of the history reaches the write with an invalid document. */
  ghost predicate EverWritesInvalid(rules: CurationRules, history: seq<SaveCall>) {
    exists i :: 0 <= i < |history| && WritesInvalid(rules, Saved(rules, history[..i]), history[i].expected, history[i].listings)
  }

  /** Over any history the table still stands for the document, as long as no save wrote past the
      validators. */
  lemma {:induction false} TableRunsLikeDocument(rules: CurationRules, history: seq<SaveCall>)
    requires !EverWritesInvalid(rules, history)
    ensures Represents(rules, TableSaved(rules, history), Saved(rules, history))
  {
    hide ValidDocument, WritesInvalid, Represents, MemSave, PgSave;
    if history == [] {
      EmptyRepresents(rules);
    } else {
      var front, last := history[..|history| - 1], history[|history| - 1];
      forall i | 0 <= i < |front|
        ensures !WritesInvalid(rules, Saved(rules, front[..i]), front[i].expected, front[i].listings)
      {
        assert front[..i] == history[..i];
      }
      TableRunsLikeDocument(rules, front);
      TableRefinesDocument(rules, TableSaved(rules, front), Saved(rules, front), last.expected, last.listings);
    }
  }

  lemma EmptyRepresents(rules: CurationRules)
    ensures Represents(rules, None, NO_DOCUMENT)
  {
  }

  ghost predicate Accepted(rules: CurationRules, history: seq<SaveCall>, i: nat)
    requires i < |history|
  {
    MemSave(rules, Saved(rules, history[..i]), history[i].expected, history[i].listings).1.Ok?
  }

  ghost function AcceptedCount(rules: CurationRules, history: seq<SaveCall>): nat {
    if history == [] then 0
    else
      AcceptedCount(rules, history[..|history| - 1])
      + (if Accepted(rules, history, |history| - 1) then 1 else 0)
  }

  /** The revision counts the accepted saves, one each. */
  lemma {:induction false} RevisionCountsSaves(rules: CurationRules, history: seq<SaveCall>)
    ensures Saved(rules, history).revision == AcceptedCount(rules, history)
  {
    if history != [] {
      RevisionCountsSaves(rules, history[..|history| - 1]);
      hide ValidDocument;
    }
  }

  lemma {:induction false} RevisionNeverFalls(rules: CurationRules, history: seq<SaveCall>, i: nat)
    requires i < |history|
    ensures Saved(rules, history[..i + 1]).revision <= Saved(rules, history).revision
    decreases |history|
  {
    assert history[..|history|] == history;
    if i + 1 < |history| {
      var front := history[..|history| - 1];
      RevisionNeverFalls(rules, front, i);
      assert front[..i + 1] == history[..i + 1];
      hide ValidDocument;
    }
  }

  /** Of any number of saves from one revision at most one wins, in any history. */
  lemma AtMostOneWins(rules: CurationRules, history: seq<SaveCall>, i: nat, j: nat)
    requires i < j < |history| && Accepted(rules, history, i) && Accepted(rules, history, j)
    ensures history[i].expected < history[j].expected
  {
    hide ValidDocument;
    assert history[..i + 1][..i] == history[..i];
    RevisionNeverFalls(rules, history[..j], i);
    assert history[..j][..i + 1] == history[..i + 1];
  }

  /** The test repository. */
  class InMemoryRepository {
    var document: Document

    constructor ()
      ensures document == NO_DOCUMENT
    {
      document := NO_DOCUMENT;
    }

    method Save(rules: CurationRules, expected: nat, listings: seq<Listing>)
      returns (r: Result<Document, CurationError>)
      modifies this
      ensures (document, r) == MemSave(rules, old(document), expected, listings)
    {
      if document.revision != expected {
        return Err(RevisionConflict);
      }
      var next := Document(expected + 1, listings);
      if !ValidDocument(rules, next) {
        return Err(ContractRejected);
      }
      document := next;
      return Ok(next);
    }
  }

  /** The table: at most one row. */
  class PostgresRepository {
    var row: Option<Document>

    constructor ()
      ensures row == None
    {
      row := None;
    }

    method Load(rules: CurationRules) returns (r: Result<Document, CurationError>)
      ensures r == PgLoad(rules, row)
    {
      if row.None? {
        return Ok(NO_DOCUMENT);
      }
      if !ValidDocument(rules, row.value) {
        return Err(RepositoryUnavailable);
      }
      return Ok(row.value);
    }

    method Save(rules: CurationRules, expected: nat, listings: seq<Listing>)
      returns (r: Result<Document, CurationError>)
      modifies this
      ensures (row, r) == PgSave(rules, old(row), expected, listings)
    {
      var next := Document(expected + 1, listings);
      if expected == 0 {
        if row.Some? {
          return Err(RevisionConflict);
        }
        row := Some(next);
      } else {
        if row.None? || row.value.revision != expected {
          return Err(RevisionConflict);
        }
        row := Some(next);
      }
      if !ValidDocument(rules, next) {
        return Err(ContractRejected);
      }
      return Ok(next);
    }
  }
}
