/** The pager (src/components/Pagination.jsx): nothing for a single page, otherwise
    Prev, one button per page, and Next. */
module Pagination {
  import opened Js

  /** One numbered button: the page it selects and whether it is marked current. */
  datatype PageButton = PageButton(target: int, current: bool)

  /** What the pager renders when it renders anything. */
  datatype Pager = Pager(
    prevTarget: int,
    prevDisabled: bool,
    buttons: seq<PageButton>,
    nextTarget: int,
    nextDisabled: bool)

  /** `for (let p = 1; p <= totalPages; p++) pages.push(p)`: exactly 1, 2, ..., totalPages. */
  method PageNumbers(totalPages: int) returns (pages: seq<int>)
    ensures |pages| == Max(totalPages, 0)
    ensures forall i :: 0 <= i < |pages| ==> pages[i] == i + 1
  {
    pages := [];
    var p := 1;
    while p <= totalPages
      invariant 1 <= p <= Max(totalPages, 0) + 1
      invariant |pages| == p - 1
      invariant forall i :: 0 <= i < |pages| ==> pages[i] == i + 1
    {
      pages := pages + [p];
      p := p + 1;
    }
  }

  /** The Prev button's target `Math.max(1, page - 1)`. */
  function PrevPage(page: int): (target: int)
    ensures target >= 1
    ensures page > 1 ==> target == page - 1
    ensures page <= 1 ==> target == 1
  {
    Max(1, page - 1)
  }

  /** The Next button's target `Math.min(totalPages, page + 1)`. */
  function NextPage(page: int, totalPages: int): (target: int)
    ensures target <= totalPages
    ensures page < totalPages ==> target == page + 1
    ensures page >= totalPages ==> target == totalPages
  {
    Min(totalPages, page + 1)
  }

  /** Within range, Next undoes Prev and Prev undoes Next, and both stay in range. */
  lemma PrevNextInverse(page: int, totalPages: int)
    requires 1 <= page <= totalPages
    ensures 1 <= PrevPage(page) <= totalPages && 1 <= NextPage(page, totalPages) <= totalPages
    ensures page > 1 ==> NextPage(PrevPage(page), totalPages) == page
    ensures page < totalPages ==> PrevPage(NextPage(page, totalPages)) == page
  {
  }

  /** The rendered pager, or None (`null`) when there is at most one page. */
  method Render(page: int, totalPages: int) returns (pager: Option<Pager>)
    ensures pager.None? <==> totalPages <= 1
    ensures pager.Some? ==> pager.value.prevTarget == PrevPage(page)
    ensures pager.Some? ==> pager.value.nextTarget == NextPage(page, totalPages)
    ensures pager.Some? ==> (pager.value.prevDisabled <==> page == 1)
    ensures pager.Some? ==> (pager.value.nextDisabled <==> page == totalPages)
    ensures pager.Some? ==> |pager.value.buttons| == totalPages
    ensures pager.Some? ==> forall i :: 0 <= i < |pager.value.buttons| ==>
      pager.value.buttons[i].target == i + 1 && (pager.value.buttons[i].current <==> i + 1 == page)
  {
    if totalPages <= 1 {
      return None;
    }
    var pages := PageNumbers(totalPages);
    var buttons := seq(|pages|, i requires 0 <= i < |pages| => PageButton(pages[i], pages[i] == page));
    pager := Some(Pager(PrevPage(page), page == 1, buttons, NextPage(page, totalPages), page == totalPages));
  }

  /** On a page in range exactly one button is current, the one for that page;
      before the first page and past the last one none is. */
  lemma OneCurrent(buttons: seq<PageButton>, page: int)
    requires forall i :: 0 <= i < |buttons| ==> buttons[i].target == i + 1 && (buttons[i].current <==> i + 1 == page)
    ensures 1 <= page <= |buttons| ==> buttons[page - 1].current
    ensures forall i, j :: 0 <= i < |buttons| && 0 <= j < |buttons| && buttons[i].current && buttons[j].current ==> i == j
    ensures page > |buttons| ==> forall i :: 0 <= i < |buttons| ==> !buttons[i].current
    ensures page < 1 ==> forall i :: 0 <= i < |buttons| ==> !buttons[i].current
  {
  }
}
