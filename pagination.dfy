/**
 * The pagination state both listing pages keep: the current page, which only
 * the Prev and Next buttons move, and the item list, page count and total
 * that the server reports and the page mirrors.
 */
module Pagination {
  import opened Wrappers

  /** A decoded list response; each field may be missing from the JSON body. */
  datatype Response<T> = Response(items: Option<seq<T>>, pages: Option<int>, total: Option<int>)

  /** What a page shows of the server's answer. */
  datatype Listing<T> = Listing(items: seq<T>, pages: int, total: int)

  /** The page number every listing starts on. */
  const FirstPage: int := 1

  /**
   * The mirrored state before any response: `useState([])`, `useState(1)`,
   * `useState(0)`. A parsed body with none of the three fields (a JSON array,
   * number or string) shows as this same state.
   */
  function EmptyListing<T>(): (l: Listing<T>)
    ensures l == Reconcile(Response(None, None, None))
  {
    Listing([], 1, 0)
  }

  /** `data.items || []`: a missing list reads as the empty list. */
  function ItemsOf<T>(data: Response<T>): (items: seq<T>)
    ensures data.items.Some? ==> items == data.items.value
    ensures data.items.None? ==> items == []
  {
    data.items.GetOr([])
  }

  /**
   * `data.pages || 1` and `data.total || 0`: a missing page count, or a page
   * count of 0, becomes 1; a missing total becomes 0.
   */
  function Reconcile<T>(data: Response<T>): (l: Listing<T>)
    ensures l.items == ItemsOf(data)
    ensures l.pages != 0
    ensures data.pages.Some? && data.pages.value != 0 ==> l.pages == data.pages.value
    ensures data.pages.None? || data.pages == Some(0) ==> l.pages == 1
    ensures data.total.Some? ==> l.total == data.total.value
    ensures data.total.None? ==> l.total == 0
  {
    Listing(ItemsOf(data),
            if data.pages.None? || data.pages.value == 0 then 1 else data.pages.value,
            data.total.GetOr(0))
  }

  /** A response that reports a listing in full is mirrored exactly. */
  lemma ReconcileEcho<T>(l: Listing<T>)
    requires l.pages != 0
    ensures Reconcile(Response(Some(l.items), Some(l.pages), Some(l.total))) == l
  {
  }

  /** Prev is enabled unless `page <= 1`: exactly when one step back is still a page. */
  predicate PrevEnabled(page: int)
    ensures PrevEnabled(page) <==> page - 1 >= FirstPage
  {
    page > 1
  }

  /** Next is enabled unless `page >= pages`: exactly when one step forward stays within the page count. */
  predicate NextEnabled(page: int, pages: int)
    ensures NextEnabled(page, pages) <==> page + 1 <= pages
  {
    page < pages
  }

  /** The page after a click on Prev; a disabled button receives no click. */
  function PrevPage(page: int): (r: int)
    ensures PrevEnabled(page) ==> r == page - 1
    ensures !PrevEnabled(page) ==> r == page
    ensures page >= FirstPage ==> r >= FirstPage
  {
    if PrevEnabled(page) then page - 1 else page
  }

  /** The page after a click on Next; a disabled button receives no click. */
  function NextPage(page: int, pages: int): (r: int)
    ensures NextEnabled(page, pages) ==> r == page + 1
    ensures !NextEnabled(page, pages) ==> r == page
    ensures r >= page
    ensures page < pages ==> r <= pages
  {
    if NextEnabled(page, pages) then page + 1 else page
  }

  /** Prev undoes Next whenever Next moved. */
  lemma NextThenPrev(page: int, pages: int)
    requires page >= FirstPage && NextEnabled(page, pages)
    ensures PrevPage(NextPage(page, pages)) == page
  {
  }

  /** Next undoes Prev whenever Prev moved from a page within the page count. */
  lemma PrevThenNext(page: int, pages: int)
    requires PrevEnabled(page) && page <= pages
    ensures NextPage(PrevPage(page), pages) == page
  {
  }
}
