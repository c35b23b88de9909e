/**
 * The home page's client side: the five-wide page-number window, the
 * previous/next targets, when pagination shows, where in-article ads go
 * between listing cards, and the parameters of every page link.
 */
module HomePageContent {
  import opened Common

  function Min(a: int, b: int): int { if a < b then a else b }
  function Max(a: int, b: int): int { if a < b then b else a }

  /** The number of page buttons: `Math.min(5, totalPages)`, and none when that is not positive. */
  function WindowLength(totalPages: int): nat {
    Max(0, Min(5, totalPages))
  }

  /** The page number of button i. */
  function WindowEntry(page: int, totalPages: int, i: int): (e: int)
    ensures totalPages >= 1 && 0 <= i < WindowLength(totalPages) ==> 1 <= e <= totalPages
    ensures totalPages > 5 && 3 < page < totalPages - 2 && i == 2 ==> e == page
  {
    if totalPages <= 5 then i + 1
    else if page <= 3 then i + 1
    else if page >= totalPages - 2 then totalPages - 4 + i
    else page - 2 + i
  }

  /** The page numbers of the buttons, in order. */
  function PageWindow(page: int, totalPages: int): (w: seq<int>)
    ensures |w| == WindowLength(totalPages)
    ensures forall i :: 0 <= i < |w| ==> w[i] == WindowEntry(page, totalPages, i)
  {
    seq(WindowLength(totalPages), i => WindowEntry(page, totalPages, i))
  }

  /** For any page and at least one page, every button is a page that exists. */
  lemma WindowInRange(page: int, totalPages: int)
    requires totalPages >= 1
    ensures forall i :: 0 <= i < |PageWindow(page, totalPages)| ==> 1 <= PageWindow(page, totalPages)[i] <= totalPages
  {
  }

  /** The buttons are consecutive page numbers, so strictly increasing and
      without repeats, five of them whenever there are more than five pages. */
  lemma WindowConsecutive(page: int, totalPages: int)
    ensures var w := PageWindow(page, totalPages);
      forall i :: 0 <= i < |w| - 1 ==> w[i + 1] == w[i] + 1
    ensures totalPages > 5 ==> |PageWindow(page, totalPages)| == 5
  {
  }

  /** The current page always has a button. */
  lemma WindowHoldsPage(page: int, totalPages: int)
    requires 1 <= page <= totalPages
    ensures page in PageWindow(page, totalPages)
  {
    var w := PageWindow(page, totalPages);
    var i :=
      if totalPages <= 5 || page <= 3 then page - 1
      else if page >= totalPages - 2 then page - totalPages + 4
      else 2;
    assert w[i] == page;
  }

  /** The previous link: `Math.max(1, page - 1)`. */
  function PreviousPage(page: int): (p: int)
    ensures p >= 1
    ensures page > 1 ==> p == page - 1
    ensures page <= 1 ==> p == 1
  {
    Max(1, page - 1)
  }

  /** The next link: `Math.min(totalPages, page + 1)`. */
  function NextPage(page: int, totalPages: int): (p: int)
    ensures p <= totalPages
    ensures page < totalPages ==> p == page + 1
    ensures page >= totalPages ==> p == totalPages
  {
    Min(totalPages, page + 1)
  }

  /** On a page that exists, previous and next stay on existing pages and move
      by one except at the first and last page, where the link is disabled. */
  lemma PreviousNextStayInRange(page: int, totalPages: int)
    requires 1 <= page <= totalPages
    ensures 1 <= PreviousPage(page) <= totalPages && 1 <= NextPage(page, totalPages) <= totalPages
    ensures PreviousPage(page) == page <==> page == 1
    ensures NextPage(page, totalPages) == page <==> page == totalPages
  {
  }

  /** Pagination shows only when there is more than one page. */
  function ShowsPagination(totalPages: int): (r: bool)
    ensures r <==> WindowLength(totalPages) >= 2
  {
    totalPages > 1
  }

  /** An in-article ad follows card `index` of `count` when the ad slot is
      configured, every fourth card, and never after the last card. */
  predicate AdAfter(slot: Option<string>, index: int, count: int) {
    Truthy(slot) && (index + 1) % 4 == 0 && index < count - 1
  }

  /** The number of in-article ads among the first n cards. */
  function AdsAmong(slot: Option<string>, n: nat, count: int): nat {
    if n == 0 then 0 else AdsAmong(slot, n - 1, count) + (if AdAfter(slot, n - 1, count) then 1 else 0)
  }

  /** No ad follows the last card. */
  lemma NoAdAfterLastCard(slot: Option<string>, count: int)
    ensures !AdAfter(slot, count - 1, count)
  {
  }

  /** With the slot configured, the first n cards (n not past the last) carry an ad after every fourth. */
  lemma {:induction false} AdsAmongPrefix(slot: Option<string>, n: nat, count: int)
    requires Truthy(slot) && n <= count - 1
    ensures AdsAmong(slot, n, count) == n / 4
  {
    if n > 0 {
      AdsAmongPrefix(slot, n - 1, count);
    }
  }

  /** With the slot configured, a non-empty list of cards shows `(count - 1) / 4` ads. */
  lemma AdCount(slot: Option<string>, count: nat)
    requires Truthy(slot) && count >= 1
    ensures AdsAmong(slot, count, count) == (count - 1) / 4
  {
    AdsAmongPrefix(slot, count - 1, count);
    assert !AdAfter(slot, count - 1, count);
  }

  /** The parameters of a page link: every search parameter except `page`,
      in order, then `page` set to the target. */
  function PageLinkParams(q: Params, target: int): (r: Params)
    ensures Get(r, "page") == Some(IntToString(target))
    ensures forall k :: k != "page" ==> Get(r, k) == Get(q, k)
  {
    GetAppend(Without(q, "page"), ("page", IntToString(target)));
    Without(q, "page") + [("page", IntToString(target))]
  }

  lemma {:induction false} GetAppend(q: Params, p: (string, string))
    ensures Get(q + [p], p.0) == if Get(q, p.0).Some? then Get(q, p.0) else Some(p.1)
    ensures forall k :: k != p.0 ==> Get(q + [p], k) == Get(q, k)
  {
    if q != [] {
      GetAppend(q[1..], p);
      assert (q + [p])[1..] == q[1..] + [p];
    }
  }
}
