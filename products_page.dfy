/**
 * The products listing: five string filters and a page number that together
 * determine the request, and the pagination state mirrored from the answer.
 */
module ProductsPage {
  import opened Wrappers
  import opened SearchParams
  import opened Pagination
  import opened Cards

  /** Products per page. */
  const Limit: int := 12

  const ProductsPath: string := "/api/products"

  /** The filter form. Every field is the string an input element holds; "" means "not set". */
  datatype Filters = Filters(category: string, q: string, inStock: string, minPrice: string, maxPrice: string)

  const NoFilters: Filters := Filters("", "", "", "", "")

  /** The optional query keys, in the order the request sets them. */
  const FilterKeys: seq<string> := ["category", "q", "in_stock", "min_price", "max_price"]

  /** The filter value sent under a query key; "" for a key that is not a filter. */
  function Field(f: Filters, k: string): string {
    if k == "category" then f.category
    else if k == "q" then f.q
    else if k == "in_stock" then f.inStock
    else if k == "min_price" then f.minPrice
    else if k == "max_price" then f.maxPrice
    else ""
  }

  /** The three availability radio buttons: Any, In stock, Out of stock. */
  datatype StockChoice = AnyStock | InStockOnly | OutOfStockOnly

  /** The values the availability filter can hold. */
  predicate ValidStock(s: string) {
    s == "" || s == "true" || s == "false"
  }

  /** The value each radio button writes into the availability filter. */
  function StockValue(c: StockChoice): (s: string)
    ensures ValidStock(s)
  {
    match c
    case AnyStock => ""
    case InStockOnly => "true"
    case OutOfStockOnly => "false"
  }

  /** The radio buttons reach every valid availability value, each through exactly one button. */
  lemma StockValueBijective(s: string)
    requires ValidStock(s)
    ensures exists c :: StockValue(c) == s
    ensures forall c, d :: StockValue(c) == s && StockValue(d) == s ==> c == d
  {
    if s == "" { assert StockValue(AnyStock) == s; }
    else if s == "true" { assert StockValue(InStockOnly) == s; }
    else { assert StockValue(OutOfStockOnly) == s; }
  }

  /**
   * The filters as (query key, value) entries: the order the request sets them
   * in, and the order `JSON.stringify` writes the record's fields in. Each
   * entry carries the filter its key names.
   */
  function Entries(f: Filters): (es: seq<(string, string)>)
    ensures EntryKeys(es) == FilterKeys
    ensures forall i :: 0 <= i < |es| ==> es[i].1 == Field(f, es[i].0)
  {
    [("category", f.category), ("q", f.q), ("in_stock", f.inStock), ("min_price", f.minPrice), ("max_price", f.maxPrice)]
  }

  /** The keys of a list of entries. */
  function EntryKeys(es: seq<(string, string)>): (ks: seq<string>)
    ensures |ks| == |es|
    ensures forall i :: 0 <= i < |es| ==> ks[i] == es[i].0
  {
    if es == [] then [] else [es[0].0] + EntryKeys(es[1..])
  }

  /** `if (value) params.set(key, value)`: the pair, or nothing for an empty value. */
  function Include(k: string, v: string): Params {
    if v != "" then [Param(k, Text(v))] else []
  }

  /** The non-empty entries as text parameters, in entry order. */
  function Present(es: seq<(string, string)>): Params {
    if es == [] then [] else Include(es[0].0, es[0].1) + Present(es[1..])
  }

  /**
   * The query of one products request: `page`, then `limit`, then each filter
   * that is not empty.
   */
  function BuildQuery(page: int, limit: int, f: Filters): (r: Params)
    ensures |r| >= 2 && r[0] == Param("page", Num(page)) && r[1] == Param("limit", Num(limit))
  {
    [Param("page", Num(page)), Param("limit", Num(limit))] + Present(Entries(f))
  }

  /**
   * The products request for a page and a filter set: it goes to the products
   * endpoint and carries the page, the limit, and the filters in a form they
   * can be read back from.
   */
  function ProductsRequest(page: int, f: Filters): (r: Request)
    ensures r.path == ProductsPath
    ensures Get(r.query, "page") == Some(Num(page))
    ensures Get(r.query, "limit") == Some(Num(Limit))
    ensures FiltersOf(r.query) == f
  {
    QueryRoundTrip(page, Limit, f);
    Request(ProductsPath, BuildQuery(page, Limit, f))
  }

  /** A filter value read back from a query: the text under its key, or "" when the key is absent. */
  function TextOf(v: Option<Value>): string {
    if v.Some? && v.value.Text? then v.value.s else ""
  }

  /** The filter set a query encodes. */
  function FiltersOf(q: Params): Filters {
    Filters(TextOf(Get(q, "category")), TextOf(Get(q, "q")), TextOf(Get(q, "in_stock")),
            TextOf(Get(q, "min_price")), TextOf(Get(q, "max_price")))
  }

  /**
   * `useEffect(..., [page, JSON.stringify(filters)])`: a refetch runs when the
   * page or the serialised filters change. The serialisation is the record's
   * (key, value) entries in order; the record always has the same five string
   * fields in the same order, so it changes exactly when one of the values does.
   */
  predicate Refetches(page0: int, f0: Filters, page1: int, f1: Filters)
    ensures Refetches(page0, f0, page1, f1) <==> page0 != page1 || f0 != f1
  {
    EntriesInjective(f0, f1);
    page0 != page1 || Entries(f0) != Entries(f1)
  }

  /** Different filter records serialise differently. */
  lemma EntriesInjective(f: Filters, g: Filters)
    ensures Entries(f) == Entries(g) <==> f == g
  {
    if Entries(f) == Entries(g) {
      assert Entries(f)[0] == Entries(g)[0] && Entries(f)[1] == Entries(g)[1];
      assert Entries(f)[2] == Entries(g)[2] && Entries(f)[3] == Entries(g)[3];
      assert Entries(f)[4] == Entries(g)[4];
    }
  }

  lemma FilterKeysDistinct()
    ensures Distinct(FilterKeys)
  {
    var ks := FilterKeys;
    forall i, j | 0 <= i < j < |ks| ensures ks[i] != ks[j] {
      assert ks[0] == "category" && ks[1] == "q" && ks[2] == "in_stock";
      assert ks[3] == "min_price" && ks[4] == "max_price";
      assert "min_price"[1] != "max_price"[1];
    }
  }

  /** Every key of `Present(es)` is a key of `es`. */
  lemma {:induction false} PresentKeysFrom(es: seq<(string, string)>)
    ensures forall k :: k in Keys(Present(es)) ==> k in EntryKeys(es)
  {
    if es != [] {
      PresentKeysFrom(es[1..]);
      var rest := Present(es[1..]);
      assert EntryKeys(es) == [es[0].0] + EntryKeys(es[1..]);
      if es[0].1 != "" {
        var p := Param(es[0].0, Text(es[0].1));
        assert Present(es) == [p] + rest;
        GetCons(p, rest);
      } else {
        assert Present(es) == rest;
      }
    }
  }

  /** `Present` keeps the entries' order and, for distinct keys, their distinctness. */
  lemma {:induction false} PresentOrder(es: seq<(string, string)>)
    requires Distinct(EntryKeys(es))
    ensures IsSubsequence(Keys(Present(es)), EntryKeys(es))
    ensures Distinct(Keys(Present(es)))
  {
    if es != [] {
      var tail := EntryKeys(es[1..]);
      assert EntryKeys(es) == [es[0].0] + tail;
      assert Distinct(tail) by {
        forall i, j | 0 <= i < j < |tail| ensures tail[i] != tail[j] {
          assert tail[i] == EntryKeys(es)[i + 1] && tail[j] == EntryKeys(es)[j + 1];
        }
      }
      assert es[0].0 !in tail by {
        forall i | 0 <= i < |tail| ensures tail[i] != es[0].0 {
          assert tail[i] == EntryKeys(es)[i + 1];
        }
      }
      PresentOrder(es[1..]);
      PresentKeysFrom(es[1..]);
      var rest := Present(es[1..]);
      var a := Keys(rest);
      if es[0].1 != "" {
        GetCons(Param(es[0].0, Text(es[0].1)), rest);
        var ka := Keys(Present(es));
        assert ka == [es[0].0] + a;
        assert ka[1..] == a;
        DistinctCons(es[0].0, a);
      } else {
        assert Present(es) == rest;
        if a != [] {
          assert a[0] in a;
          assert a[0] != es[0].0;
        }
      }
    }
  }

  /** Under distinct keys, an entry's key reads back its value when it is non-empty, and nothing otherwise. */
  lemma {:induction false} PresentGet(es: seq<(string, string)>, i: nat)
    requires i < |es| && Distinct(EntryKeys(es))
    ensures Get(Present(es), es[i].0) == if es[i].1 != "" then Some(Text(es[i].1)) else None
  {
    var k := es[i].0;
    var head, rest := Include(es[0].0, es[0].1), Present(es[1..]);
    assert Present(es) == head + rest;
    assert EntryKeys(es) == [es[0].0] + EntryKeys(es[1..]);
    DistinctUncons(es[0].0, EntryKeys(es[1..]));
    if i == 0 {
      if head == [] {
        PresentKeysFrom(es[1..]);
        assert Present(es) == rest;
      } else {
        var p := Param(es[0].0, Text(es[0].1));
        assert Present(es) == [p] + rest;
        GetCons(p, rest);
      }
    } else {
      assert es[i] == es[1..][i - 1];
      assert EntryKeys(es[1..])[i - 1] == k;
      assert k != es[0].0;
      PresentGet(es[1..], i - 1);
      if es[0].1 != "" {
        var p := Param(es[0].0, Text(es[0].1));
        assert Present(es) == [p] + rest;
        GetCons(p, rest);
      } else {
        assert Present(es) == rest;
      }
    }
  }

  /** The query's keys past `page` and `limit`. */
  lemma QueryKeys(page: int, limit: int, f: Filters)
    ensures Keys(BuildQuery(page, limit, f)) == ["page", "limit"] + Keys(Present(Entries(f)))
  {
    HeadGet(page, limit, Present(Entries(f)));
  }

  /**
   * The query begins with `page` and `limit`; the filter keys that follow occur
   * in the fixed order category, q, in_stock, min_price, max_price, and no key
   * occurs twice.
   */
  lemma QueryOrder(page: int, limit: int, f: Filters)
    ensures Keys(BuildQuery(page, limit, f))[..2] == ["page", "limit"]
    ensures IsSubsequence(Keys(BuildQuery(page, limit, f))[2..], FilterKeys)
    ensures Distinct(Keys(BuildQuery(page, limit, f)))
  {
    var ks := Keys(Present(Entries(f)));
    QueryKeys(page, limit, f);
    FilterKeysDistinct();
    PresentOrder(Entries(f));
    PresentKeysFrom(Entries(f));
    HeadKeysNotFilters();
    HeadOrder(ks);
  }

  /** Neither `page` nor `limit` is a filter key. */
  lemma HeadKeysNotFilters()
    ensures "page" !in FilterKeys && "limit" !in FilterKeys
  {
  }

  /** Distinct keys without `page` and `limit`, put behind them, stay distinct. */
  lemma HeadOrder(ks: seq<string>)
    requires "page" !in ks && "limit" !in ks && Distinct(ks)
    ensures (["page", "limit"] + ks)[..2] == ["page", "limit"]
    ensures (["page", "limit"] + ks)[2..] == ks
    ensures Distinct(["page", "limit"] + ks)
  {
    DistinctCons("limit", ks);
    DistinctCons("page", ["limit"] + ks);
    assert ["page", "limit"] + ks == ["page"] + (["limit"] + ks);
  }

  /**
   * A filter key is in the query exactly when its value is not empty, and then
   * carries exactly that value.
   */
  lemma FilterSentIffNonEmpty(page: int, limit: int, f: Filters, k: string)
    requires k in FilterKeys
    ensures k in Keys(BuildQuery(page, limit, f)) <==> Field(f, k) != ""
    ensures Get(BuildQuery(page, limit, f), k) == if Field(f, k) != "" then Some(Text(Field(f, k))) else None
  {
    var es := Entries(f);
    FilterKeysDistinct();
    var i :| 0 <= i < |FilterKeys| && FilterKeys[i] == k;
    assert es[i] == (k, Field(f, k));
    PresentGet(es, i);
    QueryGet(page, limit, f, k);
  }

  /**
   * Any list of parameters behind a `page` and a `limit` pair: the pair reads
   * back, the keys come after `page` and `limit`, and every other key reads as
   * in the list.
   */
  lemma HeadGet(page: int, limit: int, rest: Params)
    ensures Get([Param("page", Num(page)), Param("limit", Num(limit))] + rest, "page") == Some(Num(page))
    ensures Get([Param("page", Num(page)), Param("limit", Num(limit))] + rest, "limit") == Some(Num(limit))
    ensures forall k :: k != "page" && k != "limit" ==>
              Get([Param("page", Num(page)), Param("limit", Num(limit))] + rest, k) == Get(rest, k)
    ensures Keys([Param("page", Num(page)), Param("limit", Num(limit))] + rest) == ["page", "limit"] + Keys(rest)
  {
    GetCons(Param("limit", Num(limit)), rest);
    GetCons(Param("page", Num(page)), [Param("limit", Num(limit))] + rest);
    assert [Param("page", Num(page)), Param("limit", Num(limit))] + rest
        == [Param("page", Num(page))] + ([Param("limit", Num(limit))] + rest);
  }

  /** Past `page` and `limit`, a key reads in the query as it reads among the filters. */
  lemma QueryGet(page: int, limit: int, f: Filters, k: string)
    requires k != "page" && k != "limit"
    ensures Get(BuildQuery(page, limit, f), k) == Get(Present(Entries(f)), k)
  {
    HeadGet(page, limit, Present(Entries(f)));
  }

  /** `Present` sends only non-empty text values. */
  lemma {:induction false} PresentNonEmpty(es: seq<(string, string)>)
    ensures forall i :: 0 <= i < |Present(es)| ==> Present(es)[i].value.Text? && Present(es)[i].value.s != ""
  {
    if es != [] {
      PresentNonEmpty(es[1..]);
      var rest := Present(es[1..]);
      if es[0].1 != "" {
        assert Present(es) == [Param(es[0].0, Text(es[0].1))] + rest;
      } else {
        assert Present(es) == rest;
      }
    }
  }

  /** The query never carries an empty filter value: past `page` and `limit`, every value is non-empty text. */
  lemma NoEmptyValues(page: int, limit: int, f: Filters)
    ensures forall i :: 2 <= i < |BuildQuery(page, limit, f)| ==>
              BuildQuery(page, limit, f)[i].value.Text? && BuildQuery(page, limit, f)[i].value.s != ""
  {
    var rest := Present(Entries(f));
    PresentNonEmpty(Entries(f));
    forall i | 2 <= i < |BuildQuery(page, limit, f)|
      ensures BuildQuery(page, limit, f)[i].value.Text? && BuildQuery(page, limit, f)[i].value.s != ""
    {
      assert BuildQuery(page, limit, f)[i] == rest[i - 2];
    }
  }

  /** The query reads back the page, the limit and the whole filter set: it loses nothing. */
  lemma {:induction false} QueryRoundTrip(page: int, limit: int, f: Filters)
    ensures Get(BuildQuery(page, limit, f), "page") == Some(Num(page))
    ensures Get(BuildQuery(page, limit, f), "limit") == Some(Num(limit))
    ensures FiltersOf(BuildQuery(page, limit, f)) == f
  {
    var q := BuildQuery(page, limit, f);
    HeadGet(page, limit, Present(Entries(f)));
    FilterSentIffNonEmpty(page, limit, f, "category");
    FilterSentIffNonEmpty(page, limit, f, "q");
    FilterSentIffNonEmpty(page, limit, f, "in_stock");
    FilterSentIffNonEmpty(page, limit, f, "min_price");
    FilterSentIffNonEmpty(page, limit, f, "max_price");
    DecodeFilters(q, f);
  }

  /** A query that reads each filter key as the filters send it decodes to the filters. */
  lemma DecodeFilters(q: Params, f: Filters)
    requires Get(q, "category") == if f.category != "" then Some(Text(f.category)) else None
    requires Get(q, "q") == if f.q != "" then Some(Text(f.q)) else None
    requires Get(q, "in_stock") == if f.inStock != "" then Some(Text(f.inStock)) else None
    requires Get(q, "min_price") == if f.minPrice != "" then Some(Text(f.minPrice)) else None
    requires Get(q, "max_price") == if f.maxPrice != "" then Some(Text(f.maxPrice)) else None
    ensures FiltersOf(q) == f
  {
  }

  /**
   * A refetch runs exactly when the request it would send differs from the
   * last one: the request depends on the page and the filters and on nothing
   * else, and different pages or filters always give different requests.
   */
  lemma RefetchExactlyWhenQueryChanges(page0: int, f0: Filters, page1: int, f1: Filters)
    ensures Refetches(page0, f0, page1, f1) <==> ProductsRequest(page0, f0) != ProductsRequest(page1, f1)
  {
    if ProductsRequest(page0, f0) == ProductsRequest(page1, f1) {
      QueryRoundTrip(page0, Limit, f0);
      QueryRoundTrip(page1, Limit, f1);
    }
  }

  /** After Reset the request carries only the first page and the limit. */
  lemma ResetQuery()
    ensures BuildQuery(FirstPage, Limit, NoFilters) == [Param("page", Num(1)), Param("limit", Num(12))]
  {
  }

  /**
   * A worked order: category "electronics" and minimum price "10" on page 2.
   * The parameters come out page, limit, category, min_price.
   */
  lemma ExampleQuery()
    ensures BuildQuery(2, Limit, NoFilters.(category := "electronics", minPrice := "10"))
         == [Param("page", Num(2)), Param("limit", Num(12)),
             Param("category", Text("electronics")), Param("min_price", Text("10"))]
  {
  }

  /** The state of the products page. */
  class ProductsController {
    var items: seq<Product>
    var page: int
    var pages: int
    var total: int
    var filters: Filters

    /** The page is a positive number and the availability filter holds a radio button's value. */
    ghost predicate Valid()
      reads this
      ensures Valid() ==> PrevPage(page) >= FirstPage && NextPage(page, pages) >= FirstPage
      ensures Valid() ==> filters.inStock in [StockValue(AnyStock), StockValue(InStockOnly), StockValue(OutOfStockOnly)]
    {
      page >= FirstPage && ValidStock(filters.inStock)
    }

    constructor ()
      ensures Valid()
      ensures Listing(items, pages, total) == EmptyListing()
      ensures page == FirstPage && filters == NoFilters
    {
      items, pages, total := [], 1, 0;
      page := FirstPage;
      filters := NoFilters;
    }

    /** The search box. */
    method SetSearch(text: string)
      requires Valid()
      modifies this`filters, this`page
      ensures Valid()
      ensures filters == old(filters).(q := text) && page == FirstPage
    {
      filters := filters.(q := text);
      page := FirstPage;
    }

    /** The category select. */
    method SetCategory(category: string)
      requires Valid()
      modifies this`filters, this`page
      ensures Valid()
      ensures filters == old(filters).(category := category) && page == FirstPage
    {
      filters := filters.(category := category);
      page := FirstPage;
    }

    /** The availability radio buttons. */
    method SetStock(choice: StockChoice)
      requires Valid()
      modifies this`filters, this`page
      ensures Valid()
      ensures filters == old(filters).(inStock := StockValue(choice)) && page == FirstPage
    {
      filters := filters.(inStock := StockValue(choice));
      page := FirstPage;
    }

    /** The minimum price input. */
    method SetMinPrice(price: string)
      requires Valid()
      modifies this`filters, this`page
      ensures Valid()
      ensures filters == old(filters).(minPrice := price) && page == FirstPage
    {
      filters := filters.(minPrice := price);
      page := FirstPage;
    }

    /** The maximum price input. */
    method SetMaxPrice(price: string)
      requires Valid()
      modifies this`filters, this`page
      ensures Valid()
      ensures filters == old(filters).(maxPrice := price) && page == FirstPage
    {
      filters := filters.(maxPrice := price);
      page := FirstPage;
    }

    /** "Reset filters": every field cleared and back to the first page. */
    method ResetFilters()
      requires Valid()
      modifies this`filters, this`page
      ensures Valid()
      ensures filters == NoFilters && page == FirstPage
    {
      filters := NoFilters;
      page := FirstPage;
    }

    /** The Prev button. */
    method Prev()
      requires Valid()
      modifies this`page
      ensures Valid()
      ensures page == PrevPage(old(page))
    {
      if PrevEnabled(page) {
        page := page - 1;
      }
    }

    /** The Next button. */
    method Next()
      requires Valid()
      modifies this`page
      ensures Valid()
      ensures page == NextPage(old(page), pages)
    {
      if NextEnabled(page, pages) {
        page := page + 1;
      }
    }

    /** A response arrives: the list, the page count and the total are replaced. */
    method ApplyResponse(data: Response<Product>)
      requires Valid()
      modifies this`items, this`pages, this`total
      ensures Valid()
      ensures Listing(items, pages, total) == Reconcile(data)
      ensures !Refetches(old(page), old(filters), page, filters)
    {
      var l := Reconcile(data);
      items, pages, total := l.items, l.pages, l.total;
    }

    /** The query of the request for the current state, built by successive `params.set` calls. */
    method RequestQuery() returns (params: Params)
      ensures params == BuildQuery(page, Limit, filters)
    {
      params := [];
      params := Set(params, "page", Num(page));
      params := Set(params, "limit", Num(Limit));
      params := SetIfNonEmpty(params, "category", filters.category);
      params := SetIfNonEmpty(params, "q", filters.q);
      params := SetIfNonEmpty(params, "in_stock", filters.inStock);
      params := SetIfNonEmpty(params, "min_price", filters.minPrice);
      params := SetIfNonEmpty(params, "max_price", filters.maxPrice);
      SetStepsBuildQuery(page, Limit, filters);
    }
  }

  /** `if (value) params.set(key, value)`. */
  function SetIfNonEmpty(q: Params, k: string, v: string): Params {
    if v != "" then Set(q, k, Text(v)) else q
  }

  /**
   * A conditional set stores a non-empty value, which then reads back under its
   * key while every other key reads as before, and leaves the query alone for
   * an empty one.
   */
  lemma SetIfNonEmptyGet(q: Params, k: string, v: string)
    ensures v != "" ==> Get(SetIfNonEmpty(q, k, v), k) == Some(Text(v))
    ensures v != "" ==> forall j :: j != k ==> Get(SetIfNonEmpty(q, k, v), j) == Get(q, j)
    ensures v == "" ==> SetIfNonEmpty(q, k, v) == q
  {
    if v != "" {
      forall j | j != k
        ensures Get(SetIfNonEmpty(q, k, v), j) == Get(q, j)
      {
        SetFrame(q, k, Text(v), j);
      }
    }
  }

  /** The key a conditional pair adds, if any. */
  function IncludedKey(k: string, v: string): seq<string> {
    if v != "" then [k] else []
  }

  /** On a key the query lacks, a conditional set appends the pair or nothing. */
  lemma SetIfNonEmptyAppends(q: Params, k: string, v: string)
    requires k !in Keys(q)
    ensures SetIfNonEmpty(q, k, v) == q + Include(k, v)
    ensures Keys(q + Include(k, v)) == Keys(q) + IncludedKey(k, v)
  {
    KeysAppend(q, Include(k, v));
    if v != "" {
      SetAbsent(q, k, Text(v));
    } else {
      assert q + [] == q;
    }
  }

  /** The successive `params.set` calls of the request build exactly `BuildQuery`. */
  lemma SetStepsBuildQuery(page: int, limit: int, f: Filters)
    ensures SetIfNonEmpty(SetIfNonEmpty(SetIfNonEmpty(SetIfNonEmpty(SetIfNonEmpty(
              Set(Set([], "page", Num(page)), "limit", Num(limit)),
              "category", f.category), "q", f.q), "in_stock", f.inStock),
              "min_price", f.minPrice), "max_price", f.maxPrice)
         == BuildQuery(page, limit, f)
  {
    var q0 := [Param("page", Num(page)), Param("limit", Num(limit))];
    SetAbsent([], "page", Num(page));
    SetAbsent([Param("page", Num(page))], "limit", Num(limit));
    assert Set(Set([], "page", Num(page)), "limit", Num(limit)) == q0;
    var q5 := SetStepsFrom(q0, f);
    PresentOfFilters(f);
  }

  /** The five conditional sets, on a query that holds none of the filter keys. */
  lemma SetStepsFrom(q0: Params, f: Filters) returns (q5: Params)
    requires Keys(q0) == ["page", "limit"]
    ensures q5 == SetIfNonEmpty(SetIfNonEmpty(SetIfNonEmpty(SetIfNonEmpty(SetIfNonEmpty(q0,
              "category", f.category), "q", f.q), "in_stock", f.inStock),
              "min_price", f.minPrice), "max_price", f.maxPrice)
    ensures q5 == q0 + (Include("category", f.category) + (Include("q", f.q) + (Include("in_stock", f.inStock)
                  + (Include("min_price", f.minPrice) + Include("max_price", f.maxPrice)))))
  {
    var q2 := SetStepsHead(q0, f);
    var ks := ["page", "limit"] + IncludedKey("category", f.category) + IncludedKey("q", f.q);
    TailKeysFresh(f.category, f.q);
    q5 := SetStepsTail(q2, f, ks);
    var i1, i2 := Include("category", f.category), Include("q", f.q);
    var rest := Include("in_stock", f.inStock) + (Include("min_price", f.minPrice) + Include("max_price", f.maxPrice));
    AppendAssoc(q0 + i1, i2, rest);
    AppendAssoc(q0, i1, i2);
    AppendAssoc(q0, i1, i2 + rest);
  }

  /** The category and search sets, on a query holding only `page` and `limit`. */
  lemma SetStepsHead(q0: Params, f: Filters) returns (q2: Params)
    requires Keys(q0) == ["page", "limit"]
    ensures q2 == SetIfNonEmpty(SetIfNonEmpty(q0, "category", f.category), "q", f.q)
    ensures q2 == q0 + Include("category", f.category) + Include("q", f.q)
    ensures Keys(q2) == ["page", "limit"] + IncludedKey("category", f.category) + IncludedKey("q", f.q)
  {
    var q1 := SetStep(q0, "category", f.category, ["page", "limit"]);
    q2 := SetStep(q1, "q", f.q, ["page", "limit"] + IncludedKey("category", f.category));
  }

  /** None of the availability and price keys is among those the first four sets can hold. */
  lemma TailKeysFresh(category: string, q: string)
    ensures var ks := ["page", "limit"] + IncludedKey("category", category) + IncludedKey("q", q);
            "in_stock" !in ks && "min_price" !in ks && "max_price" !in ks
  {
  }

  /** The availability and price sets, on a query that holds none of their keys. */
  lemma SetStepsTail(q2: Params, f: Filters, ks: seq<string>) returns (q5: Params)
    requires Keys(q2) == ks
    requires "in_stock" !in ks && "min_price" !in ks && "max_price" !in ks
    ensures q5 == SetIfNonEmpty(SetIfNonEmpty(SetIfNonEmpty(q2,
              "in_stock", f.inStock), "min_price", f.minPrice), "max_price", f.maxPrice)
    ensures q5 == q2 + (Include("in_stock", f.inStock) + (Include("min_price", f.minPrice) + Include("max_price", f.maxPrice)))
  {
    var q3 := SetStep(q2, "in_stock", f.inStock, ks);
    var k3 := IncludedKey("in_stock", f.inStock);
    var q4 := SetStep(q3, "min_price", f.minPrice, ks + k3);
    PriceKeysDiffer();
    q5 := SetStep(q4, "max_price", f.maxPrice, ks + k3 + IncludedKey("min_price", f.minPrice));
    var i3, i4, i5 := Include("in_stock", f.inStock), Include("min_price", f.minPrice), Include("max_price", f.maxPrice);
    AppendAssoc(q3, i4, i5);
    AppendAssoc(q2, i3, i4 + i5);
  }

  /** The two price keys have the same length and differ in their second letter. */
  lemma PriceKeysDiffer()
    ensures "max_price" != "min_price"
  {
    assert "max_price"[1] != "min_price"[1];
  }

  /** One conditional set on a query whose keys are known and lack the key set. */
  lemma SetStep(q: Params, k: string, v: string, ks: seq<string>) returns (r: Params)
    requires Keys(q) == ks && k !in ks
    ensures r == SetIfNonEmpty(q, k, v) && r == q + Include(k, v)
    ensures Keys(r) == ks + IncludedKey(k, v)
  {
    SetIfNonEmptyAppends(q, k, v);
    r := q + Include(k, v);
  }

  /** `Present` over the five entries, unfolded. */
  lemma PresentOfFilters(f: Filters)
    ensures Present(Entries(f))
         == Include("category", f.category) + (Include("q", f.q) + (Include("in_stock", f.inStock)
            + (Include("min_price", f.minPrice) + Include("max_price", f.maxPrice))))
  {
    var e4 := [("max_price", f.maxPrice)];
    var e3 := [("min_price", f.minPrice)] + e4;
    var e2 := [("in_stock", f.inStock)] + e3;
    var e1 := [("q", f.q)] + e2;
    var e0 := [("category", f.category)] + e1;
    assert e0 == Entries(f);
    assert e4[1..] == [] && e3[1..] == e4 && e2[1..] == e3 && e1[1..] == e2 && e0[1..] == e1;
    assert Present(e4) == Include("max_price", f.maxPrice) + Present([]);
    assert Include("max_price", f.maxPrice) + [] == Include("max_price", f.maxPrice);
    assert Present(e3) == Include("min_price", f.minPrice) + Present(e4);
    assert Present(e2) == Include("in_stock", f.inStock) + Present(e3);
    assert Present(e1) == Include("q", f.q) + Present(e2);
    assert Present(e0) == Include("category", f.category) + Present(e1);
  }
}
