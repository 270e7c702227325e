/** The page picker of src/components/ui/pagination.tsx (`PaginationComponent`): a window of at
    most five page buttons around the current page, shortcuts to the first and last pages with
    ellipses over the gaps, and previous/next buttons. Pages are 0-based; labels are 1-based. */
module Pagination {
  import opened Wrappers
  import opened Text

  const MaxDisplayedPages: int := 5

  function Max(a: int, b: int): int { if a >= b then a else b }
  function Min(a: int, b: int): int { if a <= b then a else b }

  /** `startPage` and `endPage`, including the shift back when the window hits the last page. */
  function Window(totalPages: int, currentPage: int): (w: (int, int))
    ensures w.0 >= 0
  {
    var start := Max(0, currentPage - MaxDisplayedPages / 2);
    var end := Min(totalPages - 1, start + MaxDisplayedPages - 1);
    var start' := if end - start + 1 < MaxDisplayedPages then Max(0, end - MaxDisplayedPages + 1) else start;
    (start', end)
  }

  /** `Array.from({ length: endPage - startPage + 1 }, (_, i) => startPage + i)`; a negative length
      gives no pages. */
  function Pages(totalPages: int, currentPage: int): (r: seq<int>)
    ensures |r| <= MaxDisplayedPages
    ensures forall i :: 0 <= i < |r| ==> r[i] == Window(totalPages, currentPage).0 + i
    ensures 0 <= currentPage < totalPages ==>
      currentPage in r && forall i :: 0 <= i < |r| ==> 0 <= r[i] < totalPages
    ensures totalPages >= MaxDisplayedPages && 0 <= currentPage < totalPages ==> |r| == MaxDisplayedPages
    ensures 0 <= totalPages < MaxDisplayedPages ==> r == seq(totalPages, i => i)
  {
    var (start, end) := Window(totalPages, currentPage);
    var n := if end - start + 1 > 0 then end - start + 1 else 0;
    var r := seq(n, i => start + i);
    assert 0 <= currentPage < totalPages ==> r[currentPage - start] == currentPage;
    r
  }

  /** The previous button's target, and whether it is disabled. */
  function Previous(currentPage: int): (int, bool)
  {
    (Max(0, currentPage - 1), currentPage == 0)
  }

  /** The next button's target, and whether it is disabled. */
  function Next(totalPages: int, currentPage: int): (int, bool)
  {
    (Min(totalPages - 1, currentPage + 1), currentPage == totalPages - 1)
  }

  /** On a valid page both targets are valid pages, and a button is disabled exactly when its
      target is the current page (it would not move). */
  lemma StepTargets(totalPages: int, currentPage: int)
    requires 0 <= currentPage < totalPages
    ensures 0 <= Previous(currentPage).0 < totalPages && 0 <= Next(totalPages, currentPage).0 < totalPages
    ensures Previous(currentPage).1 <==> Previous(currentPage).0 == currentPage
    ensures Next(totalPages, currentPage).1 <==> Next(totalPages, currentPage).0 == currentPage
    ensures !Previous(currentPage).1 ==> Previous(currentPage).0 == currentPage - 1
    ensures !Next(totalPages, currentPage).1 ==> Next(totalPages, currentPage).0 == currentPage + 1
  {
  }

  /** What the picker shows between its two arrows: page buttons (each calling back with its
      0-based page) and ellipses. */
  datatype Item = PageLink(page: int) | Ellipsis

  /** The button `page + 1` is labelled with: it reads back as that 1-based number. */
  function Label(page: nat): (s: string)
    ensures ParseInt(s) == Some(page + 1)
  {
    ParseIntOfNatToString(page + 1);
    NatToString(page + 1)
  }

  function Leading(totalPages: int, currentPage: int): seq<Item>
  {
    var start := Window(totalPages, currentPage).0;
    if start > 0 then [PageLink(0)] + (if start > 1 then [Ellipsis] else []) else []
  }

  function Trailing(totalPages: int, currentPage: int): seq<Item>
  {
    var end := Window(totalPages, currentPage).1;
    if end < totalPages - 1 then (if end < totalPages - 2 then [Ellipsis] else []) + [PageLink(totalPages - 1)]
    else []
  }

  function Middle(totalPages: int, currentPage: int): (r: seq<Item>)
    ensures |r| == |Pages(totalPages, currentPage)|
    ensures forall i :: 0 <= i < |r| ==> r[i] == PageLink(Pages(totalPages, currentPage)[i])
  {
    var pages := Pages(totalPages, currentPage);
    seq(|pages|, i requires 0 <= i < |pages| => PageLink(pages[i]))
  }

  function Items(totalPages: int, currentPage: int): seq<Item>
  {
    Leading(totalPages, currentPage) + Middle(totalPages, currentPage) + Trailing(totalPages, currentPage)
  }

  /** Adjacent page buttons are consecutive pages, and an ellipsis stands between two buttons
      exactly where pages are skipped. */
  predicate WellFormed(items: seq<Item>)
  {
    (forall i :: 0 <= i < |items| - 1 && items[i].PageLink? && items[i + 1].PageLink? ==>
       items[i + 1].page == items[i].page + 1) &&
    (forall i :: 0 <= i < |items| && items[i].Ellipsis? ==>
       0 < i < |items| - 1 && items[i - 1].PageLink? && items[i + 1].PageLink? &&
       items[i + 1].page > items[i - 1].page + 1)
  }

  /** Two well-formed runs of buttons joined directly (consecutive pages) or across an ellipsis
      (skipped pages). */
  lemma JoinWellFormed(a: seq<Item>, b: seq<Item>, gap: bool)
    requires WellFormed(a) && WellFormed(b) && a != [] && b != []
    requires a[|a| - 1].PageLink? && b[0].PageLink?
    requires gap ==> b[0].page > a[|a| - 1].page + 1
    requires !gap ==> b[0].page == a[|a| - 1].page + 1
    ensures WellFormed(a + (if gap then [Ellipsis] else []) + b)
  {
    var e: seq<Item> := if gap then [Ellipsis] else [];
    var c := a + e + b;
    forall i | 0 <= i < |c| - 1 && c[i].PageLink? && c[i + 1].PageLink?
      ensures c[i + 1].page == c[i].page + 1
    {
      if i < |a| - 1 {
        assert c[i] == a[i] && c[i + 1] == a[i + 1];
      } else if i >= |a| + |e| {
        assert c[i] == b[i - |a| - |e|] && c[i + 1] == b[i + 1 - |a| - |e|];
      }
    }
    forall i | 0 <= i < |c| && c[i].Ellipsis?
      ensures 0 < i < |c| - 1 && c[i - 1].PageLink? && c[i + 1].PageLink? &&
              c[i + 1].page > c[i - 1].page + 1
    {
      if i < |a| {
        assert c[i] == a[i] && c[i - 1] == a[i - 1] && c[i + 1] == a[i + 1];
      } else if i >= |a| + |e| {
        var k := i - |a| - |e|;
        assert c[i] == b[k] && c[i - 1] == b[k - 1] && c[i + 1] == b[k + 1];
      }
    }
  }

  lemma WindowBounds(totalPages: int, currentPage: int)
    requires 0 <= currentPage < totalPages
    ensures var (start, end) := Window(totalPages, currentPage);
            0 <= start <= currentPage <= end < totalPages &&
            |Pages(totalPages, currentPage)| == end - start + 1
  {
  }

  lemma MiddleWellFormed(totalPages: int, currentPage: int)
    requires 0 <= currentPage < totalPages
    ensures var (start, end) := Window(totalPages, currentPage);
            var mid := Middle(totalPages, currentPage);
            WellFormed(mid) && mid != [] && mid[0] == PageLink(start) && mid[|mid| - 1] == PageLink(end)
  {
    WindowBounds(totalPages, currentPage);
  }

  lemma LeftWellFormed(totalPages: int, currentPage: int)
    requires 0 <= currentPage < totalPages
    ensures var left := Leading(totalPages, currentPage) + Middle(totalPages, currentPage);
            WellFormed(left) && left != [] && left[0] == PageLink(0) &&
            left[|left| - 1] == PageLink(Window(totalPages, currentPage).1)
  {
    var start := Window(totalPages, currentPage).0;
    var mid := Middle(totalPages, currentPage);
    MiddleWellFormed(totalPages, currentPage);
    if start > 0 {
      assert WellFormed([PageLink(0)]);
      JoinWellFormed([PageLink(0)], mid, start > 1);
      assert Leading(totalPages, currentPage) + mid == [PageLink(0)] + (if start > 1 then [Ellipsis] else []) + mid;
    } else {
      assert Leading(totalPages, currentPage) + mid == mid;
    }
  }

  /** On a valid page the picker reads 1 … n in order: it starts with page 0, ends with the last
      page, and every page in between is either shown or covered by an ellipsis. */
  lemma ItemsWellFormed(totalPages: int, currentPage: int)
    requires 0 <= currentPage < totalPages
    ensures var items := Items(totalPages, currentPage);
            WellFormed(items) && items[0] == PageLink(0) && items[|items| - 1] == PageLink(totalPages - 1)
  {
    var end := Window(totalPages, currentPage).1;
    var left := Leading(totalPages, currentPage) + Middle(totalPages, currentPage);
    LeftWellFormed(totalPages, currentPage);
    WindowBounds(totalPages, currentPage);
    assert Items(totalPages, currentPage) == left + Trailing(totalPages, currentPage);
    if end < totalPages - 1 {
      assert WellFormed([PageLink(totalPages - 1)]);
      JoinWellFormed(left, [PageLink(totalPages - 1)], end < totalPages - 2);
      assert left + Trailing(totalPages, currentPage) ==
             left + (if end < totalPages - 2 then [Ellipsis] else []) + [PageLink(totalPages - 1)];
    } else {
      assert left + Trailing(totalPages, currentPage) == left;
    }
  }

  /** The first-page shortcut and its ellipsis, and the last-page shortcut and its ellipsis. */
  lemma ShortcutRules(totalPages: int, currentPage: int)
    ensures var start := Window(totalPages, currentPage).0;
            (PageLink(0) in Leading(totalPages, currentPage) <==> start > 0) &&
            (Ellipsis in Leading(totalPages, currentPage) <==> start > 1)
    ensures var end := Window(totalPages, currentPage).1;
            (PageLink(totalPages - 1) in Trailing(totalPages, currentPage) <==> end < totalPages - 1) &&
            (Ellipsis in Trailing(totalPages, currentPage) <==> end < totalPages - 2)
  {
  }
}
