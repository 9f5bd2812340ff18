# MultiVendor storefront: list-query controllers and card fallbacks

This project models the part of the MultiVendor storefront UI that has rules of
its own. Everything else in the UI is markup and network calls.

- **Products listing** (`ProductsPage`). Five string filters (category, search
  text, availability, minimum and maximum price) and a page number. Together
  they determine the request `GET /api/products?page&limit=12&…`. Editing a
  filter or resetting the form goes back to page 1. Prev and Next move one page
  and are disabled at the ends. Each answer replaces the item list, the page
  count and the total, with defaults for missing fields.
- **Vendors directory** (`VendorsPage`). The same page state. The query is
  fixed: `page`, `limit=18`, `verified=true`.
- **Cards** (`Cards`). Total fallback rules from optional record fields to what
  is shown: product image or a fixed placeholder, "In stock"/"Out of stock",
  vendor logo or a generated avatar keyed by the name, location or
  "Worldwide", the Verified badge, the bio paragraph and the category tags.
- **Homepage** (`Homepage`). Two independent loads (`limit=8` products,
  `limit=6` vendors), each defaulting a missing list to `[]`.

Modules: `Wrappers` (Option), `SearchParams` (a query as an ordered list of
key/value pairs, with the `get`/`set`/`delete` rules of URLSearchParams),
`Pagination` (shared by both listing pages), `Cards`, `Homepage`,
`ProductsPage`, `VendorsPage`.

Both controllers are classes. Their fields are the component's hook state.
Their methods are the event handlers, and each states its whole new state. The
invariant `Valid()` says `page >= 1`. For products it also says the
availability filter is one of `""`, `"true"`, `"false"`. The constructor
establishes `Valid()` and every handler preserves it. Each handler also
states, through `modifies`, which fields it may change.

`ProductsController.RequestQuery` builds the query by successive `set` calls,
as the source does. It is proved equal to the pure function
`ProductsPage.BuildQuery`. The properties of the query are lemmas about that
function:

- it starts with `page`, then `limit`;
- the filter keys that follow come in the fixed order and no key repeats;
- a filter is present exactly when its value is non-empty, and then it carries
  that value;
- the query decodes back to the page and the filters (`QueryRoundTrip`).

From the round trip it follows that a refetch happens exactly when the request
would change. A refetch is keyed on `page` and `JSON.stringify(filters)`.

The code sets `page` and `limit` before any filter, so for
`{category: "electronics", min_price: "10"}` on page 2 the query comes out as
`page=2&limit=12&category=electronics&min_price=10`, in that order
(`ProductsPage.ExampleQuery`).

Modelling choices:

- The URI-component encoder used in the avatar address is a parameter
  `encode: string -> string`. Percent-encoding is not modelled.
- Clicking a disabled Prev or Next button does nothing, because the browser
  delivers no click to a disabled button. So `Prev`/`Next` have no
  precondition beyond the invariant. They are no-ops at the boundary.
- Numbers in queries stay integers (`Num`). Their decimal rendering is not
  modelled.

## Model

| member | source | states |
|---|---|---|
| `SearchParams.Get` | src/components/ProductsPage.jsx:15-21 | `params.get(k)`: the value of the first pair with key `k`; nothing exactly when no pair has that key |
| `SearchParams.Remove` | src/components/ProductsPage.jsx:15-21 | `params.delete(k)`, the step `set` uses to drop later duplicates: afterwards no pair has key `k` |
| `SearchParams.Set` | src/components/ProductsPage.jsx:15-21 | `params.set(k, v)`: afterwards `get(k)` is `v`. With `SetFrame`, every other key answers as before. |
| `SearchParams.SetAbsent` | src/components/ProductsPage.jsx:15-21 | setting a key the query does not hold appends the pair at the end |
| `SearchParams.SetFrame` | src/components/ProductsPage.jsx:15-21 | setting one key leaves the value read for every other key unchanged |
| `SearchParams.SetTwice` | src/components/ProductsPage.jsx:15-21 | setting a key twice equals setting it once to the second value |
| `Pagination.ItemsOf` | src/components/Homepage.jsx:47-48 | `d.items \|\| []`: the list when present, else the empty list |
| `Pagination.Reconcile` | src/components/ProductsPage.jsx:25-27 | items from the body or `[]`; pages from the body unless missing or 0, then 1 (never 0); total from the body or 0 |
| `Pagination.ReconcileEcho` | src/components/ProductsPage.jsx:25-27 | a body that reports a full listing with a non-zero page count is mirrored exactly |
| `Pagination.EmptyListing` | src/components/ProductsPage.jsx:5-8 | the starting listing (no items, 1 page, total 0) is what a parsed body with none of the three fields yields |
| `Pagination.PrevEnabled` | src/components/ProductsPage.jsx:103 | `disabled={page<=1}`: Prev is enabled exactly when one step back is still a page (page−1 ≥ 1) |
| `Pagination.NextEnabled` | src/components/ProductsPage.jsx:104 | `disabled={page>=pages}`: Next is enabled exactly when one step forward stays within the page count (page+1 ≤ pages) |
| `Pagination.PrevPage` | src/components/ProductsPage.jsx:103 | Prev moves to page−1 exactly when page>1, otherwise stays; a page ≥ 1 stays ≥ 1 |
| `Pagination.NextPage` | src/components/ProductsPage.jsx:104 | Next moves to page+1 exactly when page<pages, otherwise stays; it never passes `pages` from below |
| `Pagination.NextThenPrev` | src/components/ProductsPage.jsx:103-104 | Prev undoes an enabled Next |
| `Pagination.PrevThenNext` | src/components/ProductsPage.jsx:103-104 | Next undoes an enabled Prev from a page within the page count |
| `Cards.Truthy` | src/components/Homepage.jsx:29 | an optional string is falsy exactly when it is missing or empty |
| `Cards.IsTrue` | src/components/Homepage.jsx:20 | JavaScript truthiness of `p.in_stock` and `v.verified`: a missing flag counts as false |
| `Cards.OrElse` | src/components/Homepage.jsx:29-32 | `s \|\| fallback`: the value when truthy, else the fallback |
| `Cards.FirstImage` | src/components/Homepage.jsx:13 | `p.images?.[0]`: missing when the list is missing or empty, else its first element |
| `Cards.SeedText` | src/components/Homepage.jsx:29 | the avatar seed is the name, or "undefined" when the name is missing |
| `Cards.ImageSrc` | src/components/Homepage.jsx:13 | the first image when the list exists and its first element is non-empty, else the fixed placeholder; never empty |
| `Cards.StockLabel` | src/components/Homepage.jsx:20 | "In stock" exactly when the flag is true; otherwise "Out of stock"; nothing else |
| `Cards.LogoSrc` | src/components/Homepage.jsx:29 | the logo when non-empty, else the avatar prefix followed by the encoded name ("undefined" for a missing name); never empty |
| `Cards.LocationText` | src/components/Homepage.jsx:32 | the location when non-empty, else "Worldwide"; never empty |
| `Cards.BioParagraph` | src/components/Homepage.jsx:36 | the paragraph appears exactly when the bio is non-empty, and shows the bio |
| `Cards.ProductCard` | src/components/Homepage.jsx:10-24 | the card's image and stock label follow the two rules above; its colour flag is the stock flag |
| `Cards.VendorCard` | src/components/Homepage.jsx:26-38 | logo, location, bio follow the rules above; the Verified badge appears exactly when `verified` is true |
| `Cards.ProductGrid` | src/components/Homepage.jsx:73 | one card per product, in list order |
| `Cards.VendorGrid` | src/components/Homepage.jsx:83 | one card per vendor, in list order |
| `Cards.StockLabelExactlyOne` | src/components/ProductsPage.jsx:92 | the label and the badge colour always agree: "In stock" with the in-stock colour, "Out of stock" with the other |
| `Cards.AvatarKeyedByName` | src/components/Homepage.jsx:29 | without logos, two vendors get the same avatar address exactly when their encoded names are equal |
| `Cards.WorldwideExactly` | src/components/Homepage.jsx:32 | "Worldwide" is shown exactly when the location is missing, empty or literally "Worldwide" |
| `Cards.EmptyGrids` | src/components/ProductsPage.jsx:82 | an empty list renders no cards |
| `Homepage.HomeRequests` | src/components/Homepage.jsx:47-48 | the products request carries only `limit=8`, the vendors request only `limit=6` |
| `Homepage.InitialState` | src/components/Homepage.jsx:41-42 | both lists start empty |
| `Homepage.FirstRenderShowsAnswers` | src/components/Homepage.jsx:41-49 | from the initial state, the two answers in either order leave exactly their two item lists on the page |
| `Homepage.LoadProducts` | src/components/Homepage.jsx:47 | the product list becomes `d.items` or `[]`; the vendor list is untouched |
| `Homepage.LoadVendors` | src/components/Homepage.jsx:48 | the vendor list becomes `d.items` or `[]`; the product list is untouched |
| `Homepage.LoadsCommute` | src/components/Homepage.jsx:46-49 | the two loads fill disjoint state, so their arrival order does not matter |
| `Homepage.LastLoadWins` | src/components/Homepage.jsx:47 | a second products answer replaces the first entirely |
| `Homepage.MissingItemsShowEmpty` | src/components/Homepage.jsx:47-48 | a body without `items` leaves the section empty |
| `ProductsPage.StockValue` | src/components/ProductsPage.jsx:63-65 | each radio button writes one of `""`, `"true"`, `"false"` |
| `ProductsPage.StockValueBijective` | src/components/ProductsPage.jsx:63-65 | every valid availability value is written by exactly one button |
| `ProductsPage.Entries` | src/components/ProductsPage.jsx:17-21 | the five filters as (key, value) pairs in the fixed order category, q, in_stock, min_price, max_price, each pair carrying the filter its key names; the same order `JSON.stringify(filters)` uses at line 34 |
| `ProductsPage.BuildQuery` | src/components/ProductsPage.jsx:14-16 | the query starts with `page` and then `limit` |
| `ProductsPage.QueryOrder` | src/components/ProductsPage.jsx:14-21 | keys are `page`, `limit`, then a subsequence of category, q, in_stock, min_price, max_price; no key occurs twice |
| `ProductsPage.FilterSentIffNonEmpty` | src/components/ProductsPage.jsx:17-21 | a filter key is in the query if and only if its value is non-empty, and then with exactly that value |
| `ProductsPage.NoEmptyValues` | src/components/ProductsPage.jsx:17-21 | every value after `page` and `limit` is non-empty text |
| `ProductsPage.PresentGet` | src/components/ProductsPage.jsx:17-21 | over entries with distinct keys, the conditional sets leave a key's value when non-empty and nothing otherwise |
| `ProductsPage.PresentOrder` | src/components/ProductsPage.jsx:17-21 | the conditional sets keep the entries' order and distinctness |
| `ProductsPage.SetIfNonEmptyGet` | src/components/ProductsPage.jsx:17-21 | `if (value) params.set(key, value)` (`SetIfNonEmpty`): a non-empty value is then read back under its key and every other key reads as before; an empty one leaves the query as it was |
| `ProductsPage.ProductsRequest` | src/components/ProductsPage.jsx:13-23 | the request goes to `/api/products` and carries the page, the limit 12 and the filter set, all readable back |
| `ProductsPage.Refetches` | src/components/ProductsPage.jsx:34 | the dependency list `[page, JSON.stringify(filters)]` changes exactly when the page or some filter value changes |
| `ProductsPage.EntriesInjective` | src/components/ProductsPage.jsx:34 | two filter records serialise alike exactly when they are equal |
| `ProductsPage.QueryRoundTrip` | src/components/ProductsPage.jsx:14-21 | the query decodes back to the page, the limit and the whole filter set |
| `ProductsPage.RefetchExactlyWhenQueryChanges` | src/components/ProductsPage.jsx:34 | a refetch (page or filters changed by value) happens exactly when the request would differ |
| `ProductsPage.ResetQuery` | src/components/ProductsPage.jsx:36-39 | after Reset the query is exactly `[page=1, limit=12]` |
| `ProductsPage.ExampleQuery` | src/components/ProductsPage.jsx:14-21 | category "electronics", min price "10", page 2 give `page=2, limit=12, category=electronics, min_price=10` |
| `ProductsPage.SetStepsBuildQuery` | src/components/ProductsPage.jsx:14-21 | the seven successive `set` calls produce exactly `BuildQuery` |
| `ProductsPage.ProductsController.Valid` | src/components/ProductsPage.jsx:63-65 | the invariant implies the availability filter holds one radio button's value and that Prev and Next keep the page ≥ 1 |
| `ProductsPage.ProductsController.constructor` | src/components/ProductsPage.jsx:5-10 | starts with no items, page 1, 1 page, total 0 and all five filters empty |
| `ProductsPage.ProductsController.SetSearch` | src/components/ProductsPage.jsx:49 | sets `q`, leaves the other four filters and the listing unchanged, and goes to page 1 |
| `ProductsPage.ProductsController.SetCategory` | src/components/ProductsPage.jsx:54 | sets `category`, leaves the other four filters unchanged, and goes to page 1 |
| `ProductsPage.ProductsController.SetStock` | src/components/ProductsPage.jsx:63-65 | sets `in_stock` to the button's value (keeping it one of three), others unchanged, page 1 |
| `ProductsPage.ProductsController.SetMinPrice` | src/components/ProductsPage.jsx:72 | sets `min_price`, others unchanged, page 1 |
| `ProductsPage.ProductsController.SetMaxPrice` | src/components/ProductsPage.jsx:73 | sets `max_price`, others unchanged, page 1 |
| `ProductsPage.ProductsController.ResetFilters` | src/components/ProductsPage.jsx:36-39 | all five filters become empty and the page becomes 1, in one step |
| `ProductsPage.ProductsController.Prev` | src/components/ProductsPage.jsx:103 | the page becomes `PrevPage(page)`; nothing else changes; `page >= 1` is kept |
| `ProductsPage.ProductsController.Next` | src/components/ProductsPage.jsx:104 | the page becomes `NextPage(page, pages)`; nothing else changes |
| `ProductsPage.ProductsController.ApplyResponse` | src/components/ProductsPage.jsx:25-27 | items, pages and total become `Reconcile(data)`; page and filters are untouched, so no refetch follows |
| `ProductsPage.ProductsController.RequestQuery` | src/components/ProductsPage.jsx:13-21 | the query built step by step from the current state equals `BuildQuery(page, 12, filters)` |
| `VendorsPage.VendorsQuery` | src/components/VendorsPage.jsx:12 | the query is exactly the keys `page`, `limit`, `verified` in that order, with the page, 18 and `"true"` |
| `VendorsPage.VendorsRequest` | src/components/VendorsPage.jsx:12-13 | the request goes to `/api/vendors` and carries the page, the limit 18 and `verified=true` |
| `VendorsPage.Refetches` | src/components/VendorsPage.jsx:20 | the dependency list `[page]` changes exactly when the page does |
| `VendorsPage.RefetchExactlyWhenQueryChanges` | src/components/VendorsPage.jsx:20 | a refetch (page changed) happens exactly when the request would differ: it depends on the page alone |
| `VendorsPage.CategoryTags` | src/components/VendorsPage.jsx:37-40 | the tag row appears exactly when `categories` is present (even if empty), one tag per category in order |
| `VendorsPage.TagsRoundTrip` | src/components/VendorsPage.jsx:37-40 | the tags' texts read back the category list exactly |
| `VendorsPage.Tile` | src/components/VendorsPage.jsx:27-42 | a directory tile is the vendor card followed by the tag row `CategoryTags(v.categories)`: present exactly when categories are, one tag per category in order |
| `VendorsPage.TileGrid` | src/components/VendorsPage.jsx:26 | `items.map(...)`: one tile per vendor, in list order |
| `VendorsPage.VendorsController.Valid` | src/components/VendorsPage.jsx:49-50 | the invariant implies that Prev and Next keep the page ≥ 1 |
| `VendorsPage.VendorsController.constructor` | src/components/VendorsPage.jsx:5-8 | starts with no items, page 1, 1 page, total 0 |
| `VendorsPage.VendorsController.Prev` | src/components/VendorsPage.jsx:49 | the page becomes `PrevPage(page)` and a refetch follows exactly when Prev was enabled |
| `VendorsPage.VendorsController.Next` | src/components/VendorsPage.jsx:50 | the page becomes `NextPage(page, pages)` and a refetch follows exactly when Next was enabled |
| `VendorsPage.VendorsController.ApplyResponse` | src/components/VendorsPage.jsx:15-17 | items, pages and total become `Reconcile(data)`; the page is untouched, so no refetch follows |

## Left out

- Network and JSON I/O are left out: `fetch`, `res.json()`, the base-URL environment lookup. A response is a record of optional fields passed in.
- The categories request and the category `<option>` list (src/components/ProductsPage.jsx:30-32, 56) are left out. They are I/O and markup; the selected category is modelled as any string.
- Overlapping requests are left out. A stale answer may overwrite a newer one (src/components/ProductsPage.jsx:34). That is asynchronous ordering, and the code has no mechanism for it.
- The `toString` percent-encoding of the query is left out.
- Text is assumed to be well-formed Unicode. Dafny's `string` cannot hold an unpaired surrogate. For a name holding one, `encodeURIComponent` throws a URIError (src/components/Homepage.jsx:29, src/components/VendorsPage.jsx:29), and the total `encode` parameter cannot model that throw. For such a character `URLSearchParams` writes U+FFFD instead; that replacement is not modelled either.
- `encodeURIComponent` is a parameter of `Cards.LogoSrc`. Its rules are not modelled.
- Decimal rendering of `page` and `limit` is left out.
- The `${p.price}` text, title and description are left out. They are shown as given.
- Only absent fields are modelled: `pages` and `total` as optional integers, `in_stock` and `verified` as optional booleans, the text fields as optional strings. Other JSON values are not modelled. Examples: a string page count, `null` versus `undefined`, non-string images.
- A body that is not valid JSON makes `res.json()` reject (src/components/ProductsPage.jsx:24, src/components/VendorsPage.jsx:14). The fetch then stops before any setter runs, so the state is unchanged; this is not modelled as an operation. A JSON array or primitive (`[]`, `5`, `"x"`) has none of the fields and is the body `Response(None, None, None)`. A JSON `null` makes `data.items` throw, which again leaves the state unchanged; that case is not modelled either.
- `Cards.LogoSrc`: a missing name is encoded as "undefined" (the string form of `undefined`). A `null` name, which would give "null", is not modelled.
- JSX markup, CSS classes and the "Showing page … of …" line are left out.
- React's re-render scheduling is left out. Hook state is class fields; a handler is one method call.
- `ProductsPage.ProductsController.SetStock` accepts any button, including the one already checked. The browser fires no change event for that button. The result is the same filters with page 1.
- `src/components/Navbar.jsx` and `src/App.jsx` are not part of this model. One is a single path comparison; the other is a static route table.
- The newsletter `alert` and the footer's current year are left out. They are side effects and a clock read.
- The code has no min ≤ max price check and no page clamping when `pages` shrinks. The model has neither.
