/** Page arithmetic: clamped queries, and the slices of a result set that pages denote. */
module Pagination {
  import opened Wrappers
  import opened Arithmetic

  const DEFAULT_PAGE := 1
  const DEFAULT_PAGE_SIZE := 20
  const MAX_PAGE_SIZE := 100

  /** A JavaScript number: an integer, or one that `Number.isInteger` refuses (a fraction, an infinity, NaN). */
  datatype Number = Whole(value: int) | NotWhole

  datatype Resolved = Resolved(page: int, pageSize: int, skip: int, take: int)

  datatype Meta = Meta(page: int, pageSize: int, totalItems: nat, totalPages: nat, hasNextPage: bool, hasPreviousPage: bool)

  function ResolvePagination(page: Option<Number>, pageSize: Option<Number>): Resolved {
    var rawPage := if page.Some? then page.value else Whole(DEFAULT_PAGE);
    var rawPageSize := if pageSize.Some? then pageSize.value else Whole(DEFAULT_PAGE_SIZE);
    var p := if rawPage.Whole? && rawPage.value > 0 then rawPage.value else DEFAULT_PAGE;
    var size :=
      if rawPageSize.Whole? && rawPageSize.value > 0
      then if rawPageSize.value < MAX_PAGE_SIZE then rawPageSize.value else MAX_PAGE_SIZE
      else DEFAULT_PAGE_SIZE;
    Resolved(p, size, (p - 1) * size, size)
  }

  function BuildPaginationMeta(page: int, pageSize: int, totalItems: nat): Meta
    requires pageSize > 0
  {
    var totalPages := if totalItems == 0 then 0 else CeilDiv(totalItems, pageSize);
    Meta(page, pageSize, totalItems, totalPages, page < totalPages, page > 1)
  }

  /** Whether the page a query resolves to shows the item at `index`. */
  predicate Shows(r: Resolved, total: nat, index: nat) {
    r.skip <= index < r.skip + r.take && index < total
  }

  function Page(page: int, pageSize: int): Resolved {
    ResolvePagination(Some(Whole(page)), Some(Whole(pageSize)))
  }

  function PageOf(index: nat, size: int): int
    requires size > 0
  {
    index / size + 1
  }

  lemma QuotientBounds(a: nat, b: int)
    requires b > 0
    ensures a / b * b <= a < (a / b + 1) * b && (a / b + 1) * b == a / b * b + b
  {
    var q := a / b;
    assert a == q * b + a % b;
    assert (q + 1) * b == q * b + b;
  }

  /** Multiples of a positive size are ordered as their factors. */
  lemma Ordered(x: int, y: int, size: int)
    requires size > 0
    ensures x < y ==> x * size + size <= y * size
  {
    if x < y {
      var d := y - x - 1;
      assert d * size >= 0;
      assert y * size == (x + 1 + d) * size == x * size + size + d * size;
    }
  }

  /** An item is on the page its index names and on no other. */
  lemma ShownOnce(page: int, size: int, total: nat, index: nat)
    requires 1 <= size <= MAX_PAGE_SIZE && page >= 1 && index < total
    ensures Shows(Page(page, size), total, index) <==> page == PageOf(index, size)
  {
    QuotientBounds(index, size);
    Ordered(page - 1, index / size, size);
    Ordered(index / size, page - 1, size);
  }

  /** So many pages hold all the items, and one fewer would not. */
  predicate HeldBy(total: nat, pages: int, size: int) {
    (pages - 1) * size < total <= pages * size
  }

  predicate StartsBy(index: nat, before: int, size: int) {
    0 <= before && before * size <= index
  }

  lemma PagesHold(total: nat, size: int)
    requires size > 0
    ensures HeldBy(total, BuildPaginationMeta(1, size, total).totalPages, size)
  {
    if total > 0 {
      var a := total + size - 1;
      QuotientBounds(a, size);
      assert (a / size - 1) * size == a / size * size - size;
    }
  }

  lemma PageOfStarts(index: nat, size: int)
    requires size > 0
    ensures StartsBy(index, PageOf(index, size) - 1, size)
  {
    QuotientBounds(index, size);
  }

  lemma StartsBelow(index: nat, before: int, total: nat, pages: int, size: int)
    requires size > 0 && index < total && StartsBy(index, before, size) && HeldBy(total, pages, size)
    ensures 0 <= before < pages
  {
    Ordered(pages - 1, before, size);
    assert (pages - 1) * size == pages * size - size;
  }

  lemma StartIsShown(size: int, total: nat, pages: int, page: int)
    requires 1 <= size <= MAX_PAGE_SIZE && 1 <= page <= pages && HeldBy(total, pages, size)
    ensures (page - 1) * size >= 0 && Shows(Page(page, size), total, (page - 1) * size)
  {
    Ordered(-1, page - 1, size);
    Ordered(page - 1, pages - 1, size);
  }

  /** The page an item is on is one of those announced, and every announced page shows something. */
  lemma PageInRange(size: int, total: nat)
    requires 1 <= size <= MAX_PAGE_SIZE
    ensures forall index: nat | index < total :: 1 <= PageOf(index, size) <= BuildPaginationMeta(1, size, total).totalPages
    ensures forall page: int | 1 <= page <= BuildPaginationMeta(1, size, total).totalPages ::
              (page - 1) * size >= 0 && Shows(Page(page, size), total, (page - 1) * size)
  {
    hide *;
    var pages := BuildPaginationMeta(1, size, total).totalPages;
    PagesHold(total, size);
    forall index: nat | index < total ensures 1 <= PageOf(index, size) <= pages {
      PageOfStarts(index, size);
      StartsBelow(index, PageOf(index, size) - 1, total, pages, size);
    }
    forall page: int | 1 <= page <= pages ensures (page - 1) * size >= 0 && Shows(Page(page, size), total, (page - 1) * size) {
      StartIsShown(size, total, pages, page);
    }
  }

  function PageCount(size: int, total: nat): nat
    requires size > 0
  {
    BuildPaginationMeta(1, size, total).totalPages
  }

  predicate OnSomePage(size: int, total: nat, index: nat)
    requires size > 0
  {
    exists page | 1 <= page <= PageCount(size, total) :: Shows(Page(page, size), total, index)
  }

  ghost predicate NotEmpty(page: int, size: int, total: nat) {
    exists index: nat :: Shows(Page(page, size), total, index)
  }

  predicate Positive(n: Option<Number>) {
    n != None && n.value.Whole? && n.value.value > 0
  }

  /** What a query resolves to: anything but a positive whole number counts as absent, and a page has at most a hundred items. */
  lemma QueryResolves(page: Option<Number>, pageSize: Option<Number>)
    ensures var r := ResolvePagination(page, pageSize);
            && r.page == (if Positive(page) then page.value.value else 1)
            && r.pageSize == (if !Positive(pageSize) then 20 else if pageSize.value.value > 100 then 100 else pageSize.value.value)
            && r.take == r.pageSize && r.skip == (r.page - 1) * r.pageSize && r.skip >= 0
  {
    var r := ResolvePagination(page, pageSize);
    assert (r.page - 1) * r.pageSize >= 0;
  }

  /** The number of pages is the least that holds all items; a next page is announced exactly if items remain. */
  lemma MetaSays(page: int, pageSize: int, total: nat)
    requires pageSize > 0
    ensures var m := BuildPaginationMeta(page, pageSize, total);
            && m.page == page && m.pageSize == pageSize && m.totalItems == total
            && HeldBy(total, m.totalPages, pageSize)
            && (m.hasNextPage <==> page * pageSize < total)
            && (m.hasPreviousPage <==> page > 1)
  {
    PagesHold(total, pageSize);
    NextIff(page, BuildPaginationMeta(page, pageSize, total).totalPages, pageSize, total);
  }

  lemma NextIff(page: int, pages: int, size: int, total: nat)
    requires size > 0 && HeldBy(total, pages, size)
    ensures page < pages <==> page * size < total
  {
    assert (pages - 1) * size == pages * size - size;
    Ordered(page, pages, size);
    Ordered(pages - 1, page, size);
  }

  /**
   The pages partition the result set: whatever was asked for, with the resolved page
   size the pages 1..totalPages are exactly the non-empty ones, each index is on one of
   them, and no index is on two.
   */
  lemma PagesPartition(query: Option<Number>, pageSize: Option<Number>, total: nat)
    ensures var size := ResolvePagination(query, pageSize).pageSize;
            && 1 <= size <= MAX_PAGE_SIZE
            && (forall index: nat | index < total :: OnSomePage(size, total, index))
            && (forall page | page >= 1 :: NotEmpty(page, size, total) <==> page <= PageCount(size, total))
            && (forall page, other, index: nat | page >= 1 && other >= 1 && page != other ::
                  !(Shows(Page(page, size), total, index) && Shows(Page(other, size), total, index)))
  {
    var size := ResolvePagination(query, pageSize).pageSize;
    PageInRange(size, total);
    forall index: nat | index < total ensures OnSomePage(size, total, index) {
      ShownOnce(PageOf(index, size), size, total, index);
      assert Shows(Page(PageOf(index, size), size), total, index);
    }
    forall page | page >= 1 ensures NotEmpty(page, size, total) <==> page <= PageCount(size, total) {
      if page <= PageCount(size, total) {
        Ordered(0, page, size);
        assert Shows(Page(page, size), total, (page - 1) * size);
      }
      if index: nat :| Shows(Page(page, size), total, index) {
        ShownOnce(page, size, total, index);
      }
    }
    forall page, other, index: nat | page >= 1 && other >= 1 && page != other
      ensures !(Shows(Page(page, size), total, index) && Shows(Page(other, size), total, index))
    {
      if index < total {
        ShownOnce(page, size, total, index);
        ShownOnce(other, size, total, index);
      }
    }
  }

  /** The pages a client visits by following `hasNextPage` from `page` on. */
  function Walk(page: int, size: int, total: nat): seq<int>
    requires size > 0
    decreases BuildPaginationMeta(page, size, total).totalPages - page
  {
    if BuildPaginationMeta(page, size, total).hasNextPage then [page] + Walk(page + 1, size, total) else [page]
  }

  lemma {:induction false} WalkVisits(page: int, size: int, total: nat)
    requires size > 0 && page >= 1
    ensures forall p :: page <= p <= BuildPaginationMeta(page, size, total).totalPages ==> p in Walk(page, size, total)
    ensures forall i | 0 <= i < |Walk(page, size, total)| :: Walk(page, size, total)[i] == page + i
    decreases BuildPaginationMeta(page, size, total).totalPages - page
  {
    if BuildPaginationMeta(page, size, total).hasNextPage {
      WalkVisits(page + 1, size, total);
    }
  }

  /** Following `hasNextPage` from the first page ends and has shown every item. */
  lemma WalkShowsEverything(size: int, total: nat, index: nat)
    requires 1 <= size <= MAX_PAGE_SIZE && index < total
    ensures exists page :: page in Walk(1, size, total) && Shows(Page(page, size), total, index)
  {
    PageInRange(size, total);
    ShownOnce(PageOf(index, size), size, total, index);
    WalkVisits(1, size, total);
  }
}
