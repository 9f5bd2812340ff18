/**
 * The homepage: two independent, unpaginated loads on first render, one of
 * products and one of vendors, each filling its own list.
 */
module Homepage {
  import opened Wrappers
  import opened SearchParams
  import opened Pagination
  import opened Cards

  const ProductsLimit: int := 8
  const VendorsLimit: int := 6

  /** The two requests fired on first render, `?limit=8` and `?limit=6`. */
  function HomeRequests(): (rs: (Request, Request))
    ensures rs.0.path == "/api/products" && Keys(rs.0.query) == ["limit"]
    ensures Get(rs.0.query, "limit") == Some(Num(ProductsLimit))
    ensures rs.1.path == "/api/vendors" && Keys(rs.1.query) == ["limit"]
    ensures Get(rs.1.query, "limit") == Some(Num(VendorsLimit))
  {
    GetCons(Param("limit", Num(ProductsLimit)), []);
    GetCons(Param("limit", Num(VendorsLimit)), []);
    (Request("/api/products", [Param("limit", Num(ProductsLimit))]),
     Request("/api/vendors", [Param("limit", Num(VendorsLimit))]))
  }

  datatype HomeState = HomeState(products: seq<Product>, vendors: seq<Vendor>)

  /** Both lists start empty. */
  function InitialState(): (s: HomeState)
    ensures s.products == [] && s.vendors == []
  {
    HomeState([], [])
  }

  /** The products answer: `setProducts(d.items || [])`. */
  function LoadProducts(s: HomeState, d: Response<Product>): (t: HomeState)
    ensures t.products == ItemsOf(d)
    ensures t.vendors == s.vendors
  {
    s.(products := ItemsOf(d))
  }

  /** The vendors answer: `setVendors(d.items || [])`. */
  function LoadVendors(s: HomeState, d: Response<Vendor>): (t: HomeState)
    ensures t.vendors == ItemsOf(d)
    ensures t.products == s.products
  {
    s.(vendors := ItemsOf(d))
  }

  /** The two answers fill disjoint lists, so the order they arrive in does not matter. */
  lemma LoadsCommute(s: HomeState, a: Response<Product>, b: Response<Vendor>)
    ensures LoadVendors(LoadProducts(s, a), b) == LoadProducts(LoadVendors(s, b), a)
  {
  }

  /** A later answer for the same list replaces the earlier one entirely. */
  lemma LastLoadWins(s: HomeState, a: Response<Product>, b: Response<Product>)
    ensures LoadProducts(LoadProducts(s, a), b) == LoadProducts(s, b)
  {
  }

  /** A missing list in the body shows as an empty section. */
  lemma MissingItemsShowEmpty(s: HomeState)
    ensures LoadProducts(s, Response(None, None, None)).products == []
    ensures LoadVendors(s, Response(None, None, None)).vendors == []
  {
  }

  /**
   * The first render issues both requests once; whichever answer arrives
   * first, the page ends up showing exactly the two answers' lists.
   */
  lemma FirstRenderShowsAnswers(a: Response<Product>, b: Response<Vendor>)
    ensures LoadVendors(LoadProducts(InitialState(), a), b) == HomeState(ItemsOf(a), ItemsOf(b))
    ensures LoadProducts(LoadVendors(InitialState(), b), a) == HomeState(ItemsOf(a), ItemsOf(b))
  {
  }
}
