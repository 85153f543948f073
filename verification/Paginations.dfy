/** Page numbers, page sizes and page links. Numbers are integers. */
module Paginations {
  import opened Wrappers

  const DEFAULT_PAGE := 1
  const DEFAULT_PER_PAGE := 30
  const MAX_PER_PAGE := 200

  datatype Query = Query(page: Option<int>, perPage: Option<int>)

  datatype Position = Position(page: int, perPage: int, totalToSkip: int)

  datatype ValidationError = InvalidPageNumber | InvalidPerPageNumber

  datatype Pagination = Pagination(
    page: int, perPage: int, total: nat, totalPages: int, hasMore: bool, firstPage: int, lastPage: int,
    nextPage: Option<int>, prevPage: Option<int>)

  function GetPageAndPerPage(query: Query): Result<Position, ValidationError> {
    var page := if query.page.Some? then query.page.value else DEFAULT_PAGE;
    var perPage := if query.perPage.Some? then query.perPage.value else DEFAULT_PER_PAGE;
    if page < 1 then Failure(InvalidPageNumber)
    else if perPage < 0 then Failure(InvalidPerPageNumber)
    else
      var capped := if perPage > MAX_PER_PAGE then MAX_PER_PAGE else perPage;
      var size := if capped == 0 then DEFAULT_PER_PAGE else capped;
      Success(Position(page, size, (page - 1) * size))
  }

  // Math.ceil(total / perPage)
  function PagesFor(total: nat, perPage: int): (pages: nat)
    requires 0 < perPage
  {
    if total % perPage == 0 then total / perPage else total / perPage + 1
  }

  function GetPagination(page: int, perPage: int, total: nat): Pagination
    requires 0 < perPage
  {
    var pages := PagesFor(total, perPage);
    Pagination(page, perPage, total, pages, page < pages, 1, pages,
               if page < pages then Some(page + 1) else None, if page > 1 then Some(page - 1) else None)
  }

  // ----- Walks -----

  function Range(from: nat, to: nat): (r: seq<nat>)
    requires from <= to
    ensures |r| == to - from && forall i :: 0 <= i < |r| ==> r[i] == from + i
  {
    seq(to - from, i requires 0 <= i < to - from => from + i)
  }

  function Min(a: int, b: int): int {
    if a < b then a else b
  }

  // The indices a page shows, of data numbered from 0.
  function Shown(position: Position, total: nat): seq<nat>
    requires 0 <= position.totalToSkip && 0 <= position.perPage
  {
    Range(Min(position.totalToSkip, total), Min(position.totalToSkip + position.perPage, total))
  }

  datatype Walk = Walk(pages: seq<int>, indices: seq<nat>)

  /** Reads a page, then follows its next link as long as there is one. */
  function Follow(page: int, perPage: Option<int>, total: nat): Walk
    requires 1 <= page && GetPageAndPerPage(Query(Some(page), perPage)).Success?
    decreases var size := GetPageAndPerPage(Query(Some(page), perPage)).value.perPage; total + 1 - page
  {
    var position := GetPageAndPerPage(Query(Some(page), perPage)).value;
    SizeOf(page, perPage);
    var next := GetPagination(position.page, position.perPage, total).nextPage;
    if next.None? then Walk([page], Shown(position, total))
    else
      PagesAtMost(total, position.perPage);
      var rest := Follow(next.value, perPage, total);
      Walk([page] + rest.pages, Shown(position, total) + rest.indices)
  }

  predicate Accepted(perPage: Option<int>) {
    perPage.Some? ==> 0 <= perPage.value
  }

  /** Only page numbers below 1 and sizes below 0 are refused; the size used is always between 1 and 200. */
  lemma {:induction false} SizeOf(page: int, perPage: Option<int>)
    ensures var r := GetPageAndPerPage(Query(Some(page), perPage));
            && (r.Success? <==> 1 <= page && Accepted(perPage))
            && (r.Failure? ==> r.error == if page < 1 then InvalidPageNumber else InvalidPerPageNumber)
            && (r.Success? ==>
                 && r.value.page == page && 1 <= r.value.perPage <= 200
                 && r.value.perPage == GetPageAndPerPage(Query(Some(1), perPage)).value.perPage
                 && r.value.totalToSkip == (page - 1) * r.value.perPage && 0 <= r.value.totalToSkip)
  {
    var r := GetPageAndPerPage(Query(Some(page), perPage));
    if r.Success? {
      ScaleBelow(0, page - 1, r.value.perPage);
    }
  }

  /** A size of 1 to 200 is used as asked, one above 200 gives 200, and 0 or none gives 30; without a page it is the first. */
  lemma {:induction false} SizeInNumbers(page: Option<int>, perPage: Option<int>)
    requires (page.Some? ==> 1 <= page.value) && Accepted(perPage)
    ensures var r := GetPageAndPerPage(Query(page, perPage));
            && r.Success?
            && (page.None? ==> r.value.page == 1) && (page.Some? ==> r.value.page == page.value)
            && (perPage.None? || perPage == Some(0) ==> r.value.perPage == 30)
            && (perPage.Some? && 1 <= perPage.value <= 200 ==> r.value.perPage == perPage.value)
            && (perPage.Some? && 200 < perPage.value ==> r.value.perPage == 200)
  {
  }

  lemma {:induction false} PagesAtMost(total: nat, perPage: int)
    requires 0 < perPage
    ensures PagesFor(total, perPage) <= total
    ensures (PagesFor(total, perPage) - 1) * perPage < total || total == 0
    ensures total <= PagesFor(total, perPage) * perPage
  {
    var q, r := total / perPage, total % perPage;
    assert total == q * perPage + r && 0 <= r < perPage && 0 <= q;
    Product(q, perPage);
    var pages := PagesFor(total, perPage);
    assert pages == if r == 0 then q else q + 1;
  }

  lemma {:induction false} Product(q: int, m: int)
    requires 0 <= q && 1 <= m
    ensures q <= q * m && (q - 1) * m == q * m - m && (q + 1) * m == q * m + m
  {
    assert q * m - q == q * (m - 1);
  }

  function SizeFor(perPage: Option<int>): (size: int)
    requires Accepted(perPage)
    ensures 1 <= size <= 200
  {
    GetPageAndPerPage(Query(Some(1), perPage)).value.perPage
  }

  lemma {:induction false} ScaleBelow(a: int, b: int, m: int)
    requires a <= b && 0 <= m
    ensures a * m <= b * m
  {
  }

  lemma {:induction false} FollowOnce(page: int, perPage: Option<int>, total: nat)
    requires 1 <= page && Accepted(perPage)
    ensures GetPageAndPerPage(Query(Some(page), perPage)).Success?
    ensures var size := SizeFor(perPage);
            var position, pages := Position(page, size, (page - 1) * size), PagesFor(total, size);
            && 0 <= position.totalToSkip
            && (page < pages ==> GetPageAndPerPage(Query(Some(page + 1), perPage)).Success?)
            && Follow(page, perPage, total)
               == if page < pages then
                    var rest := Follow(page + 1, perPage, total);
                    Walk([page] + rest.pages, Shown(position, total) + rest.indices)
                  else Walk([page], Shown(position, total))
  {
    SizeOf(page, perPage);
    SizeOf(page + 1, perPage);
  }

  lemma {:induction false} RangesJoin(a: nat, b: nat, c: nat)
    requires a <= b <= c
    ensures Range(a, b) + Range(b, c) == Range(a, c)
  {
  }

  /** From any page on, the links lead through each later page once, and show each later index once, in order. */
  lemma {:induction false} FollowFrom(page: int, perPage: Option<int>, total: nat)
    requires 1 <= page && Accepted(perPage)
    ensures GetPageAndPerPage(Query(Some(page), perPage)).Success?
    ensures var size, walk := SizeFor(perPage), Follow(page, perPage, total);
            && 0 <= (page - 1) * size
            && walk.indices == Range(Min((page - 1) * size, total), total)
            && |walk.pages| == (if page < PagesFor(total, size) then PagesFor(total, size) - page + 1 else 1)
            && forall i :: 0 <= i < |walk.pages| ==> walk.pages[i] == page + i
    decreases total + 1 - page
  {
    hide Follow, GetPageAndPerPage, PagesFor, SizeFor, Range;
    FollowOnce(page, perPage, total);
    var size := SizeFor(perPage);
    var pages := PagesFor(total, size);
    PagesAtMost(total, size);
    Product(page, size);
    var skip := (page - 1) * size;
    assert page * size == skip + size;
    if page < pages {
      FollowFrom(page + 1, perPage, total);
      ScaleBelow(page, pages - 1, size);
      RangesJoin(skip, skip + size, total);
    } else {
      ScaleBelow(pages, page, size);
    }
  }

  /** The walk from the first page shows every index exactly once, in order, in max(1, totalPages) pages. */
  lemma {:induction false} WalkShowsAll(perPage: Option<int>, total: nat)
    requires Accepted(perPage)
    ensures GetPageAndPerPage(Query(Some(1), perPage)).Success?
    ensures var walk, pages := Follow(1, perPage, total), GetPagination(1, SizeFor(perPage), total).totalPages;
            && walk.indices == Range(0, total)
            && |walk.pages| == (if pages < 1 then 1 else pages)
            && forall i :: 0 <= i < |walk.pages| ==> walk.pages[i] == i + 1
  {
    FollowFrom(1, perPage, total);
  }

  /** There is more, and a next page, exactly when indices are left after this one; the last page is the first to leave none. */
  lemma {:induction false} LinksTell(page: int, perPage: int, total: nat)
    requires 0 < perPage && 1 <= page
    ensures var here := GetPagination(page, perPage, total);
            && here.page == page && here.perPage == perPage && here.total == total && here.firstPage == 1
            && (here.hasMore <==> page * perPage < total)
            && here.nextPage == (if page * perPage < total then Some(page + 1) else None)
            && here.prevPage == (if page == 1 then None else Some(page - 1))
            && here.lastPage == here.totalPages
            && total <= here.totalPages * perPage && (total == 0 || (here.totalPages - 1) * perPage < total)
            && (total == 0 ==> here.totalPages == 0)
  {
    hide PagesFor;
    PagesAtMost(total, perPage);
    var pages := PagesFor(total, perPage);
    if page < pages {
      ScaleBelow(page, pages - 1, perPage);
    } else {
      ScaleBelow(pages, page, perPage);
    }
  }

  /** Going to the next page and back returns to the page, and so does going back and then on. */
  lemma {:induction false} LinksInvert(page: int, perPage: int, total: nat)
    requires 0 < perPage && 1 <= page
    ensures var here := GetPagination(page, perPage, total);
            && (here.nextPage.Some? <==> here.hasMore)
            && (here.nextPage.Some? ==> GetPagination(here.nextPage.value, perPage, total).prevPage == Some(page))
            && (here.prevPage.Some? && page <= here.lastPage ==>
                 GetPagination(here.prevPage.value, perPage, total).nextPage == Some(page))
  {
  }
}
