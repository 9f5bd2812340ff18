/**
 * The vendors directory: a page number, a fixed query of verified vendors, and
 * the pagination state mirrored from the answer. Each tile is the vendor card
 * followed by the vendor's category tags.
 */
module VendorsPage {
  import opened Wrappers
  import opened SearchParams
  import opened Pagination
  import opened Cards

  /** Vendors per page. */
  const Limit: int := 18

  const VendorsPath: string := "/api/vendors"

  /** The query of one vendors request: `page`, `limit`, `verified=true`. */
  function VendorsQuery(page: int): (q: Params)
    ensures Keys(q) == ["page", "limit", "verified"]
    ensures Get(q, "page") == Some(Num(page))
    ensures Get(q, "limit") == Some(Num(Limit))
    ensures Get(q, "verified") == Some(Text("true"))
  {
    var q := [Param("page", Num(page)), Param("limit", Num(Limit)), Param("verified", Text("true"))];
    GetCons(q[0], q[1..]);
    GetCons(q[1], q[2..]);
    GetCons(q[2], []);
    assert q == [q[0]] + ([q[1]] + ([q[2]] + []));
    q
  }

  /** The vendors request for a page: verified vendors only, `Limit` per page. */
  function VendorsRequest(page: int): (r: Request)
    ensures r.path == VendorsPath
    ensures Get(r.query, "page") == Some(Num(page))
    ensures Get(r.query, "limit") == Some(Num(Limit))
    ensures Get(r.query, "verified") == Some(Text("true"))
  {
    Request(VendorsPath, VendorsQuery(page))
  }

  /** `useEffect(..., [page])`: a refetch runs when the dependency list changes, that is when the page does. */
  predicate Refetches(page0: int, page1: int)
    ensures Refetches(page0, page1) <==> page0 != page1
  {
    [page0] != [page1]
  }

  /**
   * A refetch runs exactly when the request it would send differs from the last
   * one: the request depends on the page alone.
   */
  lemma RefetchExactlyWhenQueryChanges(page0: int, page1: int)
    ensures Refetches(page0, page1) <==> VendorsRequest(page0) != VendorsRequest(page1)
  {
    if VendorsRequest(page0) == VendorsRequest(page1) {
      assert Get(VendorsQuery(page0), "page") == Some(Num(page0));
    }
  }

  /** A category tag under the vendor card. */
  datatype Tag = Tag(text: string)

  /**
   * `v.categories && v.categories.map(c => <span>{c}</span>)`: the tag row
   * appears whenever the list is present (an empty JavaScript array is truthy),
   * with one tag per category in list order.
   */
  function CategoryTags(categories: Option<seq<string>>): (tags: Option<seq<Tag>>)
    ensures tags.Some? <==> categories.Some?
    ensures tags.Some? ==> |tags.value| == |categories.value|
    ensures tags.Some? ==> forall i :: 0 <= i < |categories.value| ==> tags.value[i] == Tag(categories.value[i])
  {
    match categories
    case None => None
    case Some(cs) => Some(seq(|cs|, i requires 0 <= i < |cs| => Tag(cs[i])))
  }

  /** The tags read back exactly the categories. */
  lemma {:induction false} TagsRoundTrip(categories: seq<string>)
    ensures TagTexts(CategoryTags(Some(categories)).value) == categories
  {
    var tags := CategoryTags(Some(categories)).value;
    TagTextsAt(tags);
  }

  /** The texts of a row of tags. */
  function TagTexts(tags: seq<Tag>): seq<string> {
    if tags == [] then [] else [tags[0].text] + TagTexts(tags[1..])
  }

  lemma {:induction false} TagTextsAt(tags: seq<Tag>)
    ensures |TagTexts(tags)| == |tags|
    ensures forall i :: 0 <= i < |tags| ==> TagTexts(tags)[i] == tags[i].text
  {
    if tags != [] {
      TagTextsAt(tags[1..]);
    }
  }

  /** One vendor tile of the directory. */
  datatype VendorTile = VendorTile(card: VendorView, tags: Option<seq<Tag>>)

  function Tile(v: Vendor, encode: string -> string): (t: VendorTile)
    ensures t.card == VendorCard(v, encode)
    ensures t.tags == CategoryTags(v.categories)
    ensures t.tags.Some? <==> v.categories.Some?
  {
    VendorTile(VendorCard(v, encode), CategoryTags(v.categories))
  }

  /** `items.map(v => ...)`: one tile per vendor, in order. */
  function TileGrid(items: seq<Vendor>, encode: string -> string): (tiles: seq<VendorTile>)
    ensures |tiles| == |items|
    ensures forall i :: 0 <= i < |items| ==> tiles[i] == Tile(items[i], encode)
  {
    if items == [] then [] else [Tile(items[0], encode)] + TileGrid(items[1..], encode)
  }

  /** The state of the vendors page. */
  class VendorsController {
    var items: seq<Vendor>
    var page: int
    var pages: int
    var total: int

    /** The page is a positive number. */
    ghost predicate Valid()
      reads this
      ensures Valid() ==> PrevPage(page) >= FirstPage && NextPage(page, pages) >= FirstPage
    {
      page >= FirstPage
    }

    constructor ()
      ensures Valid()
      ensures Listing(items, pages, total) == EmptyListing()
      ensures page == FirstPage
    {
      items, pages, total := [], 1, 0;
      page := FirstPage;
    }

    /** The Prev button. */
    method Prev()
      requires Valid()
      modifies this`page
      ensures Valid()
      ensures page == PrevPage(old(page))
      ensures Refetches(old(page), page) <==> PrevEnabled(old(page))
    {
      if PrevEnabled(page) {
        page := page - 1;
      }
    }

    /** The Next button. */
    method Next()
      requires Valid()
      modifies this`page
      ensures Valid()
      ensures page == NextPage(old(page), pages)
      ensures Refetches(old(page), page) <==> NextEnabled(old(page), pages)
    {
      if NextEnabled(page, pages) {
        page := page + 1;
      }
    }

    /** A response arrives: the list, the page count and the total are replaced. */
    method ApplyResponse(data: Response<Vendor>)
      requires Valid()
      modifies this`items, this`pages, this`total
      ensures Valid()
      ensures Listing(items, pages, total) == Reconcile(data)
      ensures !Refetches(old(page), page)
    {
      var l := Reconcile(data);
      items, pages, total := l.items, l.pages, l.total;
    }
  }
}
