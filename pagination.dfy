/** The pagination bar of the listing page
    (frontend/src/domain/vehicle/components/VehiclePagination/main.tsx): the
    window of page numbers `getPageNumbers` builds, with `'...'` where pages
    are hidden, and the range of items the current page shows. */
module Pagination {

  /** An entry of the bar: a page number or the `'...'` marker. */
  datatype PageItem = Num(n: int) | Ellipsis

  /** At most this many pages are listed without an ellipsis. */
  const MaxVisible := 5

  /** The pages `lo` to `hi`, both included, in order. */
  function Range(lo: int, hi: int): (r: seq<PageItem>)
    ensures |r| == if hi < lo then 0 else hi - lo + 1
    ensures forall i :: 0 <= i < |r| ==> r[i] == Num(lo + i)
    decreases hi - lo + 1
  {
    if hi < lo then [] else Range(lo, hi - 1) + [Num(hi)]
  }

  /** The bar for page `currentPage` of `totalPages`. */
  function Window(currentPage: int, totalPages: int): seq<PageItem> {
    if totalPages <= MaxVisible then Range(1, totalPages)
    else if currentPage <= 3 then Range(1, 4) + [Ellipsis, Num(totalPages)]
    else if currentPage >= totalPages - 2 then [Num(1), Ellipsis] + Range(totalPages - 3, totalPages)
    else [Num(1), Ellipsis] + Range(currentPage - 1, currentPage + 1) + [Ellipsis, Num(totalPages)]
  }

  /** `getPageNumbers`: its loops push the pages of each part of the bar. */
  method GetPageNumbers(currentPage: int, totalPages: int) returns (pages: seq<PageItem>)
    ensures pages == Window(currentPage, totalPages)
  {
    pages := [];
    if totalPages <= MaxVisible {
      var i := 1;
      while i <= totalPages
        invariant 1 <= i <= (if totalPages < 1 then 1 else totalPages + 1)
        invariant pages == Range(1, i - 1)
        decreases totalPages - i + 1
      {
        pages := pages + [Num(i)];
        i := i + 1;
      }
    } else {
      if currentPage <= 3 {
        var i := 1;
        while i <= 4
          invariant 1 <= i <= 5
          invariant pages == Range(1, i - 1)
        {
          pages := pages + [Num(i)];
          i := i + 1;
        }
        pages := pages + [Ellipsis];
        pages := pages + [Num(totalPages)];
        assert pages == Range(1, 4) + [Ellipsis, Num(totalPages)];
      } else if currentPage >= totalPages - 2 {
        pages := pages + [Num(1)];
        pages := pages + [Ellipsis];
        assert pages == [Num(1), Ellipsis] + Range(totalPages - 3, totalPages - 4);
        var i := totalPages - 3;
        while i <= totalPages
          invariant totalPages - 3 <= i <= totalPages + 1
          invariant pages == [Num(1), Ellipsis] + Range(totalPages - 3, i - 1)
        {
          pages := pages + [Num(i)];
          i := i + 1;
        }
      } else {
        pages := pages + [Num(1)];
        pages := pages + [Ellipsis];
        assert pages == [Num(1), Ellipsis] + Range(currentPage - 1, currentPage - 2);
        var i := currentPage - 1;
        while i <= currentPage + 1
          invariant currentPage - 1 <= i <= currentPage + 2
          invariant pages == [Num(1), Ellipsis] + Range(currentPage - 1, i - 1)
        {
          pages := pages + [Num(i)];
          i := i + 1;
        }
        pages := pages + [Ellipsis];
        pages := pages + [Num(totalPages)];
        assert pages == [Num(1), Ellipsis] + Range(currentPage - 1, currentPage + 1) + [Ellipsis, Num(totalPages)];
      }
    }
  }

  // ------------------------------------------------------------ the four shapes

  /** Up to five pages, every page is listed: 1 to `totalPages`, none when
      there are no pages. */
  lemma SmallWindow(currentPage: int, totalPages: int)
    requires totalPages <= MaxVisible
    ensures var r := Window(currentPage, totalPages);
      && |r| == (if totalPages < 0 then 0 else totalPages)
      && forall i :: 0 <= i < |r| ==> r[i] == Num(i + 1)
  {
  }

  /** Near the first page: 1 to 4, an ellipsis, the last page. */
  lemma WindowAtStart(currentPage: int, totalPages: int)
    requires totalPages > MaxVisible && currentPage <= 3
    ensures Window(currentPage, totalPages) == [Num(1), Num(2), Num(3), Num(4), Ellipsis, Num(totalPages)]
  {
    assert Range(1, 4) == [Num(1), Num(2), Num(3), Num(4)];
  }

  /** Near the last page: the first page, an ellipsis, the last four. */
  lemma WindowAtEnd(currentPage: int, totalPages: int)
    requires totalPages > MaxVisible && 3 < currentPage && currentPage >= totalPages - 2
    ensures var t := totalPages;
      Window(currentPage, t) == [Num(1), Ellipsis, Num(t - 3), Num(t - 2), Num(t - 1), Num(t)]
  {
    var t := totalPages;
    assert Range(t - 3, t) == [Num(t - 3), Num(t - 2), Num(t - 1), Num(t)];
  }

  /** Elsewhere: the first page, an ellipsis, the current page between its
      neighbours, an ellipsis, the last page. */
  lemma WindowInMiddle(currentPage: int, totalPages: int)
    requires totalPages > MaxVisible && 3 < currentPage < totalPages - 2
    ensures var c := currentPage;
      Window(c, totalPages) == [Num(1), Ellipsis, Num(c - 1), Num(c), Num(c + 1), Ellipsis, Num(totalPages)]
  {
    var c := currentPage;
    assert Range(c - 1, c + 1) == [Num(c - 1), Num(c), Num(c + 1)];
  }

  // ------------------------------------------------------------ properties

  /** The page numbers rise strictly. */
  predicate Increasing(r: seq<PageItem>) {
    forall i, j :: 0 <= i < j < |r| && r[i].Num? && r[j].Num? ==> r[i].n < r[j].n
  }

  /** Every number is a page, 1 to `totalPages`. */
  predicate WithinPages(r: seq<PageItem>, totalPages: int) {
    forall i :: 0 <= i < |r| && r[i].Num? ==> 1 <= r[i].n <= totalPages
  }

  /** Two numbers side by side are consecutive pages, and an ellipsis stands
      between two numbers and hides at least one page: no page is skipped
      silently. */
  predicate NoSilentGap(r: seq<PageItem>) {
    && (forall i :: 0 <= i < |r| - 1 && r[i].Num? && r[i + 1].Num? ==> r[i + 1].n == r[i].n + 1)
    && (forall i :: 0 <= i < |r| && r[i].Ellipsis? ==>
          0 < i < |r| - 1 && r[i - 1].Num? && r[i + 1].Num? && r[i + 1].n > r[i - 1].n + 1)
  }

  lemma RangeShape(lo: int, hi: int)
    ensures Increasing(Range(lo, hi)) && NoSilentGap(Range(lo, hi))
  {
  }

  /** The shape every bar has. */
  predicate WellShaped(r: seq<PageItem>, totalPages: int) {
    && Increasing(r) && WithinPages(r, totalPages) && NoSilentGap(r)
    && |r| <= 7
    && (totalPages >= 1 ==> |r| >= 1 && r[0] == Num(1) && r[|r| - 1] == Num(totalPages))
  }

  lemma SmallShape(currentPage: int, totalPages: int)
    requires totalPages <= MaxVisible
    ensures WellShaped(Window(currentPage, totalPages), totalPages)
  {
    SmallWindow(currentPage, totalPages);
    RangeShape(1, totalPages);
  }

  lemma StartShape(t: int)
    requires t > MaxVisible
    ensures WellShaped([Num(1), Num(2), Num(3), Num(4), Ellipsis, Num(t)], t)
  {
  }

  lemma EndShape(t: int)
    requires t > MaxVisible
    ensures WellShaped([Num(1), Ellipsis, Num(t - 3), Num(t - 2), Num(t - 1), Num(t)], t)
  {
  }

  lemma MiddleShape(c: int, t: int)
    requires t > MaxVisible && 3 < c < t - 2
    ensures WellShaped([Num(1), Ellipsis, Num(c - 1), Num(c), Num(c + 1), Ellipsis, Num(t)], t)
  {
  }

  /** Whatever the current page, the bar lists pages 1 to `totalPages` in
      rising order, at most seven entries, the first and the last page among
      them, and hides no page without an ellipsis. */
  lemma WindowShape(currentPage: int, totalPages: int)
    ensures WellShaped(Window(currentPage, totalPages), totalPages)
  {
    var c, t := currentPage, totalPages;
    if t <= MaxVisible {
      SmallShape(c, t);
    } else if c <= 3 {
      WindowAtStart(c, t);
      StartShape(t);
    } else if c >= t - 2 {
      WindowAtEnd(c, t);
      EndShape(t);
    } else {
      WindowInMiddle(c, t);
      MiddleShape(c, t);
    }
  }

  /** A current page that exists is always on the bar. */
  lemma WindowHasCurrentPage(currentPage: int, totalPages: int)
    requires 1 <= currentPage <= totalPages
    ensures Num(currentPage) in Window(currentPage, totalPages)
  {
    var c, t := currentPage, totalPages;
    var r := Window(c, t);
    if t <= MaxVisible {
      SmallWindow(c, t);
      assert r[c - 1] == Num(c);
    } else if c <= 3 {
      WindowAtStart(c, t);
      assert r[c - 1] == Num(c);
    } else if c >= t - 2 {
      WindowAtEnd(c, t);
      assert r[c - t + 5] == Num(c);
    } else {
      WindowInMiddle(c, t);
      assert r[3] == Num(c);
    }
  }

  // ------------------------------------------------------------ items shown

  /** The position of the first item of the page, counted from 1. */
  function StartItem(currentPage: int, pageSize: int): int {
    (currentPage - 1) * pageSize + 1
  }

  /** The position of the last item of the page: a full page, or the last
      item there is. */
  function EndItem(currentPage: int, pageSize: int, total: int): int {
    if currentPage * pageSize <= total then currentPage * pageSize else total
  }

  /** On a page that has items, the range shown lies within the items, and
      holds at most a page of them. */
  lemma ItemRange(currentPage: int, pageSize: int, total: int)
    requires currentPage >= 1 && pageSize >= 1
    requires (currentPage - 1) * pageSize < total
    ensures 1 <= StartItem(currentPage, pageSize) <= EndItem(currentPage, pageSize, total) <= total
    ensures EndItem(currentPage, pageSize, total) - StartItem(currentPage, pageSize) < pageSize
    ensures EndItem(currentPage, pageSize, total) == total <==> currentPage * pageSize >= total
  {
    var c, s := currentPage, pageSize;
    assert c * s == (c - 1) * s + s;
    assert (c - 1) * s >= 0;
  }

  /** The next page starts right after this one ends: the pages show every
      item once. */
  lemma ItemsContiguous(currentPage: int, pageSize: int, total: int)
    requires currentPage >= 1 && pageSize >= 1
    requires currentPage * pageSize <= total
    ensures StartItem(currentPage + 1, pageSize) == EndItem(currentPage, pageSize, total) + 1
  {
  }
}
