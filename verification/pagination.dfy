/** The pagination check of `suppliers/khommo/models.py`. */
module Pagination {

  const MAX_LIMIT := 500

  /** `min(limit, total - (page - 1) * limit)`. */
  function ExpectedItems(page: int, limit: int, total: int): int {
    var rest := total - (page - 1) * limit;
    if rest < limit then rest else limit
  }

  /** `(total + limit - 1) // limit`, both operands non-negative. */
  function ExpectedPages(limit: nat, total: nat): nat
    requires 0 < limit
  {
    (total + limit - 1) / limit
  }

  /** `parse_products` accepts a page of `items` products with this metadata. */
  predicate Accepts(page: nat, limit: nat, total: nat, totalPages: nat, items: nat) {
    && 1 <= page
    && 1 <= limit <= MAX_LIMIT
    && if total == 0 then items == 0 && page == 1 && totalPages in {0, 1}
       else
         && totalPages == ExpectedPages(limit, total)
         && page <= totalPages
         && ExpectedItems(page, limit, total) >= 0
         && items == ExpectedItems(page, limit, total)
  }

  lemma PagesCover(limit: nat, total: nat)
    requires 1 <= limit && 1 <= total
    ensures (ExpectedPages(limit, total) - 1) * limit < total <= ExpectedPages(limit, total) * limit
  {
    var pages := ExpectedPages(limit, total);
    assert total + limit - 1 == pages * limit + (total + limit - 1) % limit;
    assert (pages - 1) * limit == pages * limit - limit;
  }

  lemma Monotone(a: int, b: int, limit: nat)
    requires a <= b
    ensures a * limit <= b * limit
  {
    assert b * limit == a * limit + (b - a) * limit;
  }

  /** For an in-range page the negative-count branch is never reached: every page has an item, every page
      but the last is full, and the accepted count of a page is that number and nothing else. */
  lemma InRangePagesAreNonEmpty(page: nat, limit: nat, total: nat, items: nat)
    requires 1 <= limit <= MAX_LIMIT && 1 <= total && 1 <= page <= ExpectedPages(limit, total)
    ensures 1 <= ExpectedItems(page, limit, total) <= limit
    ensures page < ExpectedPages(limit, total) ==> ExpectedItems(page, limit, total) == limit
    ensures Accepts(page, limit, total, ExpectedPages(limit, total), items) <==> items == ExpectedItems(page, limit, total)
  {
    PagesCover(limit, total);
    Monotone(page - 1, ExpectedPages(limit, total) - 1, limit);
    if page < ExpectedPages(limit, total) {
      Monotone(page, ExpectedPages(limit, total) - 1, limit);
      assert (page - 1) * limit == page * limit - limit;
    }
  }

  /** The page count is the one that covers the total and no more. */
  lemma OnlyOneCovers(limit: nat, total: nat, pages: int)
    requires 1 <= limit && 1 <= total && (pages - 1) * limit < total <= pages * limit
    ensures pages == ExpectedPages(limit, total)
  {
    PagesCover(limit, total);
    var expected := ExpectedPages(limit, total);
    if pages < expected {
      Monotone(pages, expected - 1, limit);
    } else if pages > expected {
      Monotone(expected, pages - 1, limit);
    }
  }

  /** Exactly which pages are accepted: an empty catalog has one empty page, reported as none or one; any other
      has as many pages as cover it, all full but the last, which holds the rest. */
  lemma AcceptsExactly(page: nat, limit: nat, total: nat, totalPages: nat, items: nat)
    ensures Accepts(page, limit, total, totalPages, items) <==>
      && 1 <= page && 1 <= limit <= MAX_LIMIT
      && (total == 0 ==> items == 0 && page == 1 && totalPages <= 1)
      && (total > 0 ==>
            && (totalPages - 1) * limit < total <= totalPages * limit && page <= totalPages
            && items == if page < totalPages then limit else total - (totalPages - 1) * limit)
  {
    if total > 0 && 1 <= limit <= MAX_LIMIT && 1 <= page <= totalPages {
      if totalPages == ExpectedPages(limit, total) {
        PagesCover(limit, total);
        InRangePagesAreNonEmpty(page, limit, total, items);
      } else if (totalPages - 1) * limit < total <= totalPages * limit {
        OnlyOneCovers(limit, total, totalPages);
      }
    }
  }

  /** The items of the first `pages` pages together. */
  function ItemsThrough(pages: nat, limit: nat, total: nat): int {
    if pages == 0 then 0 else ItemsThrough(pages - 1, limit, total) + ExpectedItems(pages, limit, total)
  }

  lemma {:induction false} ItemsAddUp(pages: nat, limit: nat, total: nat)
    requires 1 <= limit <= MAX_LIMIT && 1 <= total && pages <= ExpectedPages(limit, total)
    ensures ItemsThrough(pages, limit, total) == if pages * limit < total then pages * limit else total
  {
    if pages > 0 {
      ItemsAddUp(pages - 1, limit, total);
      PagesCover(limit, total);
      Monotone(pages - 1, ExpectedPages(limit, total) - 1, limit);
      assert pages * limit == (pages - 1) * limit + limit;
    }
  }

  /** A full walk sees every item exactly once: the accepted counts of pages 1..total_pages sum to the
      total. */
  lemma PagesSumToTotal(limit: nat, total: nat, counts: seq<nat>)
    requires 1 <= limit <= MAX_LIMIT && 1 <= total && |counts| == ExpectedPages(limit, total)
    requires forall i :: 0 <= i < |counts| ==> Accepts(i + 1, limit, total, |counts|, counts[i])
    ensures Sum(counts) == total
  {
    SumIsItemsThrough(limit, total, counts);
    ItemsAddUp(|counts|, limit, total);
    PagesCover(limit, total);
  }

  function Sum(counts: seq<nat>): nat {
    if counts == [] then 0 else Sum(counts[..|counts| - 1]) + counts[|counts| - 1]
  }

  lemma {:induction false} SumIsItemsThrough(limit: nat, total: nat, counts: seq<nat>)
    requires forall i :: 0 <= i < |counts| ==> counts[i] == ExpectedItems(i + 1, limit, total)
    ensures Sum(counts) == ItemsThrough(|counts|, limit, total)
  {
    if counts != [] {
      var n := |counts| - 1;
      SumIsItemsThrough(limit, total, counts[..n]);
    }
  }
}
