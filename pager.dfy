/** The pager of src/js/components/Pagination.js (duplicated in list.js):
    the number of pages, the slice of items shown on a page, and the row of
    navigation buttons with its seven-wide window of page numbers. */
module Pager {
  import opened JsCore

  /** `maxVisible`: how many page-number buttons the navigation shows at most. */
  /** `itemsPerPage` as both listing elements' constructors set it. */
  const ItemsPerPage: int := 10

  const MaxVisible: int := 7

  datatype Caption = Prev | Next | PageNumber(n: int)

  /** One `createButton(label, page, isActive, disabled)`: clicking an enabled
      button goes to `page`. */
  datatype Button = Button(caption: Caption, page: int, active: bool, disabled: bool)

  /** `Math.ceil(totalItems / itemsPerPage)`: the least number of pages of
      `itemsPerPage` items that hold every item. */
  function TotalPages(totalItems: nat, itemsPerPage: int): (pages: nat)
    requires itemsPerPage > 0
    ensures totalItems <= pages * itemsPerPage
    ensures pages == 0 || (pages - 1) * itemsPerPage < totalItems
  {
    var q := (totalItems + itemsPerPage - 1) / itemsPerPage;
    assert (q - 1) * itemsPerPage == q * itemsPerPage - itemsPerPage;
    q
  }

  lemma MulMonotone(a: int, b: int, k: int)
    requires a <= b && 0 <= k
    ensures a * k <= b * k
  {
    assert b * k - a * k == (b - a) * k;
  }

  /** The two bounds on `TotalPages` determine it. */
  lemma TotalPagesUnique(totalItems: nat, itemsPerPage: int, q: nat)
    requires itemsPerPage > 0
    requires totalItems <= q * itemsPerPage
    requires q == 0 || (q - 1) * itemsPerPage < totalItems
    ensures q == TotalPages(totalItems, itemsPerPage)
  {
    var t := TotalPages(totalItems, itemsPerPage);
    if t < q {
      MulMonotone(t, q - 1, itemsPerPage);
    } else if q < t {
      MulMonotone(q, t - 1, itemsPerPage);
    }
  }

  /** The items of page `currentPage` (1-based):
      `items.slice((currentPage - 1) * itemsPerPage, start + itemsPerPage)`. */
  function PageItems<T>(items: seq<T>, currentPage: int, itemsPerPage: int): seq<T>
  {
    var start := (currentPage - 1) * itemsPerPage;
    JsSlice(items, start, start + itemsPerPage)
  }

  /** A page is the stretch of at most `itemsPerPage` items starting at
      `(currentPage - 1) * itemsPerPage`, clipped to the sequence; a page past
      the last one is empty. */
  lemma PageItemsBounds<T>(items: seq<T>, currentPage: int, itemsPerPage: int)
    requires currentPage >= 1 && itemsPerPage > 0
    ensures var start := (currentPage - 1) * itemsPerPage;
      && 0 <= start
      && PageItems(items, currentPage, itemsPerPage) == items[Min(start, |items|)..Min(start + itemsPerPage, |items|)]
      && |PageItems(items, currentPage, itemsPerPage)| <= itemsPerPage
      && (currentPage > TotalPages(|items|, itemsPerPage) ==> PageItems(items, currentPage, itemsPerPage) == [])
  {
    var start := (currentPage - 1) * itemsPerPage;
    MulMonotone(0, currentPage - 1, itemsPerPage);
    var t := TotalPages(|items|, itemsPerPage);
    if currentPage > t {
      MulMonotone(t, currentPage - 1, itemsPerPage);
    }
  }

  /** Page `p + 1` of `items` is page `p` of what follows the first page. */
  lemma PageShift<T>(items: seq<T>, p: int, itemsPerPage: int)
    requires p >= 1 && itemsPerPage > 0 && |items| >= itemsPerPage
    ensures PageItems(items, p + 1, itemsPerPage) == PageItems(items[itemsPerPage..], p, itemsPerPage)
  {
    PageItemsBounds(items, p + 1, itemsPerPage);
    PageItemsBounds(items[itemsPerPage..], p, itemsPerPage);
    assert (p + 1 - 1) * itemsPerPage == (p - 1) * itemsPerPage + itemsPerPage;
  }

  function Flatten<T>(pages: seq<seq<T>>): seq<T>
  {
    if pages == [] then [] else pages[0] + Flatten(pages[1..])
  }

  /** Pages 1 to `TotalPages`, in order. */
  function AllPages<T>(items: seq<T>, itemsPerPage: int): seq<seq<T>>
    requires itemsPerPage > 0
  {
    seq(TotalPages(|items|, itemsPerPage), i => PageItems(items, i + 1, itemsPerPage))
  }

  /** More than a page of items: the first page is the first `itemsPerPage`
      items, and the pages after it are the pages of the remaining items. */
  lemma AllPagesStep<T>(items: seq<T>, itemsPerPage: int)
    requires itemsPerPage > 0 && |items| > itemsPerPage
    ensures AllPages(items, itemsPerPage)
         == [items[..itemsPerPage]] + AllPages(items[itemsPerPage..], itemsPerPage)
  {
    var n := |items|;
    var pages := AllPages(items, itemsPerPage);
    var rest := items[itemsPerPage..];
    var t := TotalPages(n - itemsPerPage, itemsPerPage);
    assert (t + 1 - 1) * itemsPerPage == t * itemsPerPage;
    assert (t + 1) * itemsPerPage == t * itemsPerPage + itemsPerPage;
    TotalPagesUnique(n, itemsPerPage, t + 1);
    PageItemsBounds(items, 1, itemsPerPage);
    var restPages := AllPages(rest, itemsPerPage);
    forall i | 0 <= i < |restPages|
      ensures pages[i + 1] == restPages[i]
    {
      PageShift(items, i + 1, itemsPerPage);
    }
    assert pages == [pages[0]] + restPages;
  }

  /** Pages 1 to `TotalPages`, laid end to end, give back exactly the items:
      no item is lost, repeated or moved. */
  lemma {:induction false} PagesPartitionItems<T>(items: seq<T>, itemsPerPage: int)
    requires itemsPerPage > 0
    ensures Flatten(AllPages(items, itemsPerPage)) == items
    decreases |items|
  {
    var n := |items|;
    var pages := AllPages(items, itemsPerPage);
    if n == 0 {
      TotalPagesUnique(0, itemsPerPage, 0);
    } else if n <= itemsPerPage {
      TotalPagesUnique(n, itemsPerPage, 1);
      PageItemsBounds(items, 1, itemsPerPage);
      assert items[0..n] == items;
      assert pages == [items];
      assert pages[1..] == [];
    } else {
      var rest := items[itemsPerPage..];
      AllPagesStep(items, itemsPerPage);
      PagesPartitionItems(rest, itemsPerPage);
      assert pages[1..] == AllPages(rest, itemsPerPage);
      assert items == items[..itemsPerPage] + rest;
    }
  }

  /** The last page holds the remainder of the division, or a full page when
      the items divide evenly. */
  lemma LastPageLength<T>(items: seq<T>, itemsPerPage: int)
    requires itemsPerPage > 0 && |items| > 0
    ensures TotalPages(|items|, itemsPerPage) >= 1
    ensures |PageItems(items, TotalPages(|items|, itemsPerPage), itemsPerPage)|
         == if |items| % itemsPerPage == 0 then itemsPerPage else |items| % itemsPerPage
  {
    var n := |items|;
    var q := n / itemsPerPage;
    var r := n % itemsPerPage;
    assert n == q * itemsPerPage + r;
    if r == 0 {
      assert (q - 1) * itemsPerPage == q * itemsPerPage - itemsPerPage;
      TotalPagesUnique(n, itemsPerPage, q);
      PageItemsBounds(items, q, itemsPerPage);
    } else {
      assert (q + 1) * itemsPerPage == q * itemsPerPage + itemsPerPage;
      assert (q + 1 - 1) * itemsPerPage == q * itemsPerPage;
      TotalPagesUnique(n, itemsPerPage, q + 1);
      PageItemsBounds(items, q + 1, itemsPerPage);
    }
  }

  /** 23 items at 10 per page make three pages of 10, 10 and 3 items. */
  lemma TwentyThreeItems<T>(items: seq<T>)
    requires |items| == 23
    ensures TotalPages(23, 10) == 3
    ensures |PageItems(items, 1, 10)| == 10
    ensures |PageItems(items, 2, 10)| == 10
    ensures |PageItems(items, 3, 10)| == 3
  {
    TotalPagesUnique(23, 10, 3);
  }

  /** The window `[start, end]` of page numbers shown: centred on the current
      page, `MaxVisible` wide, and pulled back when it runs past the last page. */
  function Window(currentPage: int, totalPages: int): (w: (int, int))
    ensures totalPages >= 1 ==> 1 <= w.0 <= w.1 <= totalPages
    ensures totalPages >= 1 ==> w.1 - w.0 + 1 == Min(MaxVisible, totalPages)
    ensures 1 <= currentPage <= totalPages ==> w.0 <= currentPage <= w.1
  {
    var start := Max(1, currentPage - MaxVisible / 2);
    var end := start + MaxVisible - 1;
    if end > totalPages then (Max(1, totalPages - MaxVisible + 1), totalPages) else (start, end)
  }

  /** The page-number buttons `first..last`; the one for `currentPage` is active. */
  function PageButtons(first: int, last: int, currentPage: int): seq<Button>
  {
    seq(Max(0, last - first + 1), i => Button(PageNumber(first + i), first + i, first + i == currentPage, false))
  }

  /** The navigation as a list of buttons: none at all for a single page,
      otherwise Prev, the window of page numbers, and Next. */
  function NavButtons(currentPage: int, totalPages: int): Option<seq<Button>>
  {
    if totalPages <= 1 then None
    else
      var w := Window(currentPage, totalPages);
      Some([Button(Prev, currentPage - 1, false, currentPage == 1)]
           + PageButtons(w.0, w.1, currentPage)
           + [Button(Next, currentPage + 1, false, currentPage == totalPages)])
  }

  /** The pages an enabled button of the navigation leads to. */
  function EnabledTargets(nav: Option<seq<Button>>): set<int>
  {
    if nav.None? then {} else set b | b in nav.value && !b.disabled :: b.page
  }

  /** `renderPagination`: computes the number of pages, returns early when
      there is at most one, and otherwise appends Prev, one button per page
      of the window, and Next. */
  method RenderPagination(currentPage: int, totalItems: nat, itemsPerPage: int) returns (nav: Option<seq<Button>>)
    requires itemsPerPage > 0
    ensures nav == NavButtons(currentPage, TotalPages(totalItems, itemsPerPage))
  {
    var totalPages := TotalPages(totalItems, itemsPerPage);
    if totalPages <= 1 {
      return None;
    }
    var prev := Button(Prev, currentPage - 1, false, currentPage == 1);
    var buttons := [prev];
    var start := Max(1, currentPage - MaxVisible / 2);
    var end := start + MaxVisible - 1;
    if end > totalPages {
      end := totalPages;
      start := Max(1, end - MaxVisible + 1);
    }
    var i := start;
    while i <= end
      invariant start <= i <= end + 1
      invariant buttons == [prev] + PageButtons(start, i - 1, currentPage)
    {
      buttons := buttons + [Button(PageNumber(i), i, i == currentPage, false)];
      i := i + 1;
    }
    buttons := buttons + [Button(Next, currentPage + 1, false, currentPage == totalPages)];
    nav := Some(buttons);
  }

  /** With more than one page the navigation is Prev, `Min(MaxVisible,
      totalPages)` page buttons numbered upwards from 1 or more to at most
      `totalPages`, and Next; Prev leads to the page before and is disabled
      exactly on the first page, Next leads to the page after and is disabled
      exactly on the last. */
  lemma NavShape(currentPage: int, totalPages: int)
    requires totalPages >= 2
    ensures NavButtons(currentPage, totalPages).Some?
    ensures var b := NavButtons(currentPage, totalPages).value;
      && |b| == Min(MaxVisible, totalPages) + 2
      && b[0] == Button(Prev, currentPage - 1, false, currentPage == 1)
      && b[|b| - 1] == Button(Next, currentPage + 1, false, currentPage == totalPages)
      && (forall k :: 1 <= k < |b| - 1 ==> b[k].caption == PageNumber(b[k].page) && !b[k].disabled)
      && (forall k :: 1 <= k < |b| - 1 ==> 1 <= b[k].page <= totalPages)
      && (forall k :: 1 <= k < |b| - 2 ==> b[k + 1].page == b[k].page + 1)
  {
  }

  /** For a current page in range, exactly one button is active, and it is
      the button of the current page. */
  lemma ExactlyOneActive(currentPage: int, totalPages: int)
    requires 2 <= totalPages && 1 <= currentPage <= totalPages
    ensures NavButtons(currentPage, totalPages).Some?
    ensures var b := NavButtons(currentPage, totalPages).value;
      && (exists k :: 0 <= k < |b| && b[k].active && b[k].page == currentPage)
      && (forall j, k :: 0 <= j < |b| && 0 <= k < |b| && b[j].active && b[k].active ==> j == k)
  {
    var b := NavButtons(currentPage, totalPages).value;
    var w := Window(currentPage, totalPages);
    var k := currentPage - w.0 + 1;
    assert b[k].active && b[k].page == currentPage;
  }

  /** For a current page in range, every enabled button leads to a page in
      `[1, totalPages]`: Prev only when there is a page before, Next only when
      there is a page after. */
  lemma EnabledTargetsInRange(currentPage: int, totalPages: int)
    requires 1 <= currentPage <= totalPages
    ensures forall p :: p in EnabledTargets(NavButtons(currentPage, totalPages)) ==> 1 <= p <= totalPages
    ensures totalPages >= 2 ==> (currentPage - 1 in EnabledTargets(NavButtons(currentPage, totalPages)) <==> currentPage > 1)
    ensures totalPages >= 2 ==> (currentPage + 1 in EnabledTargets(NavButtons(currentPage, totalPages)) <==> currentPage < totalPages)
  {
    if totalPages >= 2 {
      NavShape(currentPage, totalPages);
      var b := NavButtons(currentPage, totalPages).value;
      assert b[0] in b && b[|b| - 1] in b;
      forall x | x in b && !x.disabled
        ensures 1 <= x.page <= totalPages
      {
        var k :| 0 <= k < |b| && b[k] == x;
      }
    }
  }
}
