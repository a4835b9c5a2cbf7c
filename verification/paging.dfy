/**
 * Pagination: the numbered items that `GeneratePagination` builds
 * (src/App.js:181-195), although the markup never renders them, and the
 * First / Prev / Next / Last bar that is rendered (src/App.js:382-405).
 */
module Paging {
  import Filters

  datatype PageItem = PageItem(number: int, active: bool)

  /** The items `1..countPage` in order, each active exactly when it is the current page. */
  ghost predicate Numbered(items: seq<PageItem>, page: int)
  {
    forall k :: 0 <= k < |items| ==> items[k] == PageItem(k + 1, k + 1 == page)
  }

  /** The numbered items, built as the source's counting loop builds them. */
  method GeneratePagination(page: int, countPage: int) returns (items: seq<PageItem>)
    ensures |items| == if countPage > 0 then countPage else 0
    ensures forall k :: 0 <= k < |items| ==> items[k].number == k + 1
    ensures forall k :: 0 <= k < |items| ==> (items[k].active <==> items[k].number == page)
    ensures ActiveCount(items) == if 1 <= page <= countPage then 1 else 0
  {
    items := [];
    var number := 1;
    while number <= countPage
      invariant 1 <= number
      invariant countPage >= 1 ==> number <= countPage + 1
      invariant countPage < 1 ==> number == 1
      invariant |items| == number - 1
      invariant forall k :: 0 <= k < |items| ==> items[k] == PageItem(k + 1, k + 1 == page)
    {
      items := items + [PageItem(number, number == page)];
      number := number + 1;
    }
    OneActiveIffInRange(items, page);
  }

  /** How many items are marked active. */
  function ActiveCount(items: seq<PageItem>): nat
    decreases |items|
  {
    if |items| == 0 then 0
    else ActiveCount(items[..|items| - 1]) + (if items[|items| - 1].active then 1 else 0)
  }

  /** Exactly one item is active when the page is within `1..countPage`, and none otherwise. */
  lemma {:induction false} OneActiveIffInRange(items: seq<PageItem>, page: int)
    requires Numbered(items, page)
    ensures ActiveCount(items) == if 1 <= page <= |items| then 1 else 0
    decreases |items|
  {
    if |items| > 0 {
      var init := items[..|items| - 1];
      assert Numbered(init, page) by {
        forall k | 0 <= k < |init| ensures init[k] == PageItem(k + 1, k + 1 == page) {
          assert init[k] == items[k];
        }
      }
      OneActiveIffInRange(init, page);
      assert items[|items| - 1] == PageItem(|items|, |items| == page);
    }
  }

  /** The control bar: absent, or shown with the disabled flags of its four buttons. */
  datatype Bar = Hidden | Shown(firstDisabled: bool, prevDisabled: bool, nextDisabled: bool, lastDisabled: bool)

  /** The bar for the current page and page total. */
  function Controls(page: int, countPage: int): (b: Bar)
    ensures b.Shown? <==> countPage > 1
    ensures b.Shown? ==> (b.firstDisabled <==> page == 1) && (b.prevDisabled <==> page == 1)
    ensures b.Shown? ==> (b.nextDisabled <==> page == countPage) && (b.lastDisabled <==> page == countPage)
  {
    if countPage > 1 then Shown(page == 1, page == 1, page == countPage, page == countPage)
    else Hidden
  }

  /**
   * Starting from a page within `1..countPage`, every move the bar leaves
   * enabled (and a numbered jump within range) lands on a page within
   * `1..countPage` again: the range is kept by the disabled flags, not by
   * the moves.
   */
  lemma EnabledMovesStayInRange(f: Filters.Filter, countPage: int, n: int)
    requires 1 <= f.page <= countPage
    requires Controls(f.page, countPage).Shown?
    ensures !Controls(f.page, countPage).nextDisabled ==> 1 <= Filters.NextPage(f).page <= countPage
    ensures !Controls(f.page, countPage).prevDisabled ==> 1 <= Filters.PrevPage(f).page <= countPage
    ensures 1 <= Filters.FirstPage(f).page <= countPage
    ensures 1 <= Filters.LastPage(f, countPage).page <= countPage
    ensures 1 <= n <= countPage ==> 1 <= Filters.GoToPage(f, n).page <= countPage
  {
  }

  /**
   * Outside the range nothing holds the page back: on page 5 of 3 no button
   * is disabled and Next leads to page 6.
   */
  lemma OutOfRangeIsNotClamped(f: Filters.Filter)
    requires f.page == 5
    ensures Controls(f.page, 3) == Shown(false, false, false, false)
    ensures Filters.NextPage(f).page == 6
  {
  }
}
