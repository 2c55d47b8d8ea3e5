# Products dashboard: a verified model of its decision logic

This project models the parts of the admin dashboard's "Products" page that make decisions:

- the product-list provider (`ProductProvider`): six state slots (products, loading,
  error, current page, total pages, total items) and the fetch cycle that updates them.
  The cycle has a start, one of four outcomes (non-OK response, well-formed envelope,
  malformed envelope, thrown value) and the `finally` step;
- the product table (`AllProducts`): the data source with its creation-date default, the
  case-insensitive search filter over name, product code and category, the
  "Showing X-Y from Z" label for pages of 12, the status badge, and the handlers for
  selection, search, reload, pagination and row actions;
- the page shell (`MainLayout`): the sidebar-open flag, toggled only on mobile, the
  expanded menu groups, and the classes derived from them;
- the top bar (`Navigation`): the width classes and the five show/hide flags.

The network result is an abstract `FetchOutcome` value and the breakpoints are a
`Screens(md, lg)` value. Both are passed in as parameters. Toasts are returned as `Notice`
values. Lower-casing is ASCII-only (`Strings.Lower`), and `includes` is specified as
"occurs at some index" (`Strings.Includes`).

Some behaviour of the code that is easy to get wrong:

- A thrown `Error` keeps its own message; only the non-OK response stores
  "Failed to fetch products". A network failure therefore does not yield that text.
- The non-OK and thrown paths clear only the list. The page and item counts keep their
  previous values.
- A malformed envelope sets no error. It only resets the list and counters.
  "Veri alınamadı" is stored only when the thrown value is not an `Error`.
- The sidebar toggle acts on mobile only, not on tablets.

Some source expressions are plain predicates and functions without a row of their own;
the members in the table below use them: `MainLayout.IsMobile` is
src/components/layout/MainLayout.tsx:13, `MainLayout.IsSidebarCollapsed` is line 15 and
`MainLayout.SidebarWidthClass` is line 48 of that file; `ProductContext.WellFormed` is
src/context/ProductContext.tsx:57; `AllProducts.RowMatches` is
src/components/body/AllProducts.tsx:107-109.

## Model

| member | source | states |
|---|---|---|
| `ProductContext.PagesOrOne` | src/context/ProductContext.tsx:59 | the stored page count is the reported one, or 1 when it is absent or 0; it is never 0 |
| `ProductContext.ItemsOrZero` | src/context/ProductContext.tsx:60 | the stored item count is the reported one, or 0 when it is absent |
| `ProductContext.CaughtMessage` | src/context/ProductContext.tsx:67 | a caught `Error` contributes its own message; any other thrown value gives "Veri alınamadı" |
| `ProductContext.ProductProvider.constructor` | src/context/ProductContext.tsx:40-45 | the initial state: no products, loading, no error, page 1, 1 page, 0 items |
| `ProductContext.ProductProvider.SetCurrentPage` | src/context/ProductContext.tsx:43 | the page becomes the requested one; the fetch effect runs again only if the page changed |
| `ProductContext.ProductProvider.BeginFetch` | src/context/ProductContext.tsx:50-51 | starting a fetch sets loading and clears the error; no other slot changes |
| `ProductContext.ProductProvider.Settle` | src/context/ProductContext.tsx:53-71 | per outcome: non-OK stores "Failed to fetch products" and clears only the list; a thrown value stores its message and clears only the list; a well-formed envelope stores its list exactly and the counts with their fallbacks; a malformed one resets list, pages to 1 and items to 0; loading ends false, the page is untouched, the page count stays nonzero |
| `ProductContext.ProductProvider.FetchProducts` | src/context/ProductContext.tsx:47-75 | a whole fetch: the error is null exactly when a body was parsed; an error always comes with an empty list and unchanged counts; loading ends false and the page never changes |
| `Strings.Lower` | src/components/body/AllProducts.tsx:105 | lower-casing keeps the length and maps each character; no upper-case letter remains |
| `Strings.Includes` | src/components/body/AllProducts.tsx:107-109 | `includes` is true exactly when the needle occurs at some index of the haystack |
| `AllProducts.WithDefaultDate` | src/components/body/AllProducts.tsx:99 | one row: every field but the creation date is kept; a truthy date is kept, a falsy one becomes "-" |
| `AllProducts.DataSource` | src/components/body/AllProducts.tsx:98-100 | same length and order as the products; each row differs only in its creation date, which is never falsy afterwards |
| `AllProducts.DataSourceIdempotent` | src/components/body/AllProducts.tsx:98-100 | deriving the data source twice gives the same rows as once |
| `AllProducts.Keep` | src/components/body/AllProducts.tsx:106-110 | the filter's result is an order-preserving subsequence; it contains only matching rows, and each row as many times as the input when it matches, otherwise none |
| `AllProducts.FilterProducts` | src/components/body/AllProducts.tsx:103-111 | an empty term yields the whole data source; otherwise a row is kept iff the lower-cased term occurs in its lower-cased name, product code or category; every copy of a kept row stays, and order is preserved |
| `AllProducts.EmptyTermKeepsAll` | src/components/body/AllProducts.tsx:104-110 | the empty-term shortcut gives what the filter itself would give, since every row contains the empty string |
| `AllProducts.MatchIgnoresTermCase` | src/components/body/AllProducts.tsx:105-110 | upper- or lower-casing the search term does not change which rows match |
| `AllProducts.MatchIgnoresFieldCase` | src/components/body/AllProducts.tsx:107-109 | upper-casing a row's name, code and category does not change whether it matches |
| `AllProducts.Showing` | src/components/body/AllProducts.tsx:274 | start is (page-1)*12+1 and end is min(page*12, total); so the end never passes the total and the range never spans more than 12 items; for a page of at least 1, the range is exactly the existing items that fall on that page |
| `AllProducts.PageOfBounds` | src/components/body/AllProducts.tsx:274 | item k is on page p iff (p-1)*12+1 <= k <= p*12 |
| `AllProducts.EmptyFirstPageLabel` | src/components/body/AllProducts.tsx:274 | with no items, page 1 reads "1-0 from 0" |
| `AllProducts.FullFirstPageLabel` | src/components/body/AllProducts.tsx:274 | with 30 items, page 1 reads "1-12 from 30" |
| `AllProducts.StatusBadge` | src/components/body/AllProducts.tsx:56-61 | the text is "Completed" iff the status is true, otherwise "Canceled"; colours and icon follow the same test |
| `AllProducts.TableView.constructor` | src/components/body/AllProducts.tsx:94-95 | the search term starts empty and nothing is selected |
| `AllProducts.TableView.Rows` | src/components/body/AllProducts.tsx:268 | the table shows the whole data source while the term is empty, otherwise an order-preserving subsequence holding exactly the matching rows with all their copies |
| `AllProducts.TableView.Label` | src/components/body/AllProducts.tsx:274 | the label is computed from the provider's current page and item count: start (page-1)*12+1, end min(page*12, items), end never past the item count, at most 12 items |
| `AllProducts.TableView.OnSelectChange` | src/components/body/AllProducts.tsx:114-116 | the selection becomes exactly the given keys; the search term is untouched |
| `AllProducts.TableView.HandleSearch` | src/components/body/AllProducts.tsx:119-121 | the search term becomes the given value; the selection is untouched; the shown rows become the data source filtered by the new term |
| `AllProducts.TableView.HandleReload` | src/components/body/AllProducts.tsx:124-127 | the page becomes 1, which refetches only when it was another page, and the label then starts at 1; a "Products reloaded" success toast; the page count stays nonzero |
| `AllProducts.TableView.HandlePaginationChange` | src/components/body/AllProducts.tsx:130-132 | the requested page is passed to the provider unchanged |
| `AllProducts.TableView.HandleProductAction` | src/components/body/AllProducts.tsx:135-146 | edit and delete only produce a toast naming the product; any other action produces nothing; no state changes |
| `Navigation.Classify` | src/components/body/Navigation.tsx:84-87 | desktop iff lg and mobile iff not md; tablet is never together with desktop or mobile; when lg implies md exactly one class holds |
| `Navigation.Flags` | src/components/body/Navigation.tsx:89-94 | icons iff lg or the sidebar is open; hamburger iff not desktop-and-medium (not md or not lg) and the sidebar is closed; so one of them is always shown, never both when lg implies md; the hamburger only when the sidebar is closed; the logo iff mobile and closed; user info iff md; title iff lg; logo and title never together when lg implies md |
| `Navigation.UnnestedScreensOverlap` | src/components/body/Navigation.tsx:84-94 | without lg implying md, icons and hamburger, and logo and title, can all show at once |
| `MainLayout.Toggled` | src/components/layout/MainLayout.tsx:22-27 | the toggle flips the open flag iff the screen is mobile |
| `MainLayout.ToggleTwice` | src/components/layout/MainLayout.tsx:22-27 | toggling twice on the same screen restores the flag |
| `MainLayout.ShouldRenderSidebar` | src/components/layout/MainLayout.tsx:36 | the sidebar is always drawn off mobile, and on mobile iff it is open |
| `MainLayout.ContentMarginClass` | src/components/layout/MainLayout.tsx:41 | the margin is empty iff the sidebar is not drawn; "ml-64" iff non-mobile and lg; "ml-20" iff mobile and open, or non-mobile and not lg |
| `MainLayout.MarginMatchesSidebar` | src/components/layout/MainLayout.tsx:41-48 | when lg implies md and the sidebar is drawn, the content margin is "ml-20" for a collapsed sidebar and "ml-64" otherwise, the same width as the sidebar's "w-20"/"w-64" class |
| `MainLayout.HamburgerOpensSidebarOnMobile` | src/components/layout/MainLayout.tsx:22-36 | on mobile the hamburger shows iff closed; pressing it opens and draws the sidebar and hides the hamburger |
| `MainLayout.HamburgerInertOnTablet` | src/components/layout/MainLayout.tsx:22-27 | on a tablet with the flag off, the hamburger is shown but pressing it changes nothing |
| `MainLayout.Layout.constructor` | src/components/layout/MainLayout.tsx:19-20 | the sidebar starts open iff not mobile; "products" and "orders" start expanded iff lg |
| `MainLayout.Layout.HandleSidebarToggle` | src/components/layout/MainLayout.tsx:22-27 | the open flag is flipped on mobile and kept otherwise; the expanded groups are untouched |
| `MainLayout.Layout.OnOpenChange` | src/components/layout/MainLayout.tsx:29-31 | the expanded groups become exactly the given list; the open flag is untouched |

## Left out

- The HTTP request and `response.json()` are I/O. Their result is the `FetchOutcome` parameter.
- Overlapping fetches for different pages, where a stale response can land last, are left
  out. They are asynchronous interleaving. The model runs one fetch at a time.
- React's batching is not modelled. The fetch has two observable steps: `BeginFetch`, and
  `Settle`, which covers the outcome branch, the `catch` clause and the `finally` clause.
- JavaScript numbers are modelled as unbounded integers. NaN, fractional counts and
  floating-point pages are not covered.
- A truthy `data.data` that is not an array is not modelled. An envelope's `data` is either
  a product list or absent.
- Lower-casing is ASCII-only. Unicode case mapping is not modelled.
- Date and currency formatting (`toLocaleDateString`, `toLocaleString`) is left out. These
  are locale library calls. The date column's fallback to today's date is part of this.
- JSX, the Ant Design widgets and the toast display are left out. Toasts are returned as values.
- The widget computes the new selection list when a checkbox is clicked. The model only
  stores the list it is given.
- `useBreakpoint` is left out. The breakpoints are the `Screens` parameter.
- `handleExport`, `handleAddProduct` and the column rendering of name, code and price are
  left out. The two handlers only raise a fixed toast, and the rendering has no logic.
- The context's default value, used with no provider above it, is left out. The model
  assumes every consumer runs below the provider.
- The sidebar menu tree, the sidebar header and the overview cards are left out. They are
  static markup with no state.
