/** The product table: the rows it derives from the provider's list, the "Showing X-Y
    from Z" label, the status badge and the handlers that update its own state and the
    provider's page. */
module AllProducts {
  import opened Wrappers
  import opened Strings
  import opened ProductContext

  /** The fixed page size the label and the pagination widget use. */
  const PageSize: int := 12

  /** JavaScript truthiness of an optional string: present and non-empty. */
  predicate Truthy(s: Option<string>)
  {
    s.Some? && s.value != ""
  }

  /** `{ ...p, createdAt: p.createdAt || '-' }` */
  function WithDefaultDate(p: Product): (r: Product)
    ensures r.(createdAt := p.createdAt) == p
    ensures Truthy(r.createdAt)
    ensures Truthy(p.createdAt) ==> r.createdAt == p.createdAt
    ensures !Truthy(p.createdAt) ==> r.createdAt == Some("-")
  {
    p.(createdAt := if Truthy(p.createdAt) then p.createdAt else Some("-"))
  }

  /** The table's data source: the provider's list, same length and order, with every
      falsy creation date replaced by "-" and every other field untouched. */
  function DataSource(ps: seq<Product>): (r: seq<Product>)
    ensures |r| == |ps|
    ensures forall i :: 0 <= i < |r| ==> r[i].(createdAt := ps[i].createdAt) == ps[i]
    ensures forall i :: 0 <= i < |r| ==> Truthy(r[i].createdAt)
    ensures forall i :: 0 <= i < |r| ==> Truthy(ps[i].createdAt) ==> r[i].createdAt == ps[i].createdAt
    ensures forall i :: 0 <= i < |r| ==> !Truthy(ps[i].createdAt) ==> r[i].createdAt == Some("-")
  {
    seq(|ps|, i requires 0 <= i < |ps| => WithDefaultDate(ps[i]))
  }

  /** Deriving the data source from an already derived list changes nothing. */
  lemma DataSourceIdempotent(ps: seq<Product>)
    ensures DataSource(DataSource(ps)) == DataSource(ps)
  {
  }

  /** A row matches an already lower-cased term when the term occurs in its lower-cased
      name, product code or category. */
  predicate RowMatches(p: Product, searchLower: string)
  {
    || Includes(Lower(p.name), searchLower)
    || Includes(Lower(p.productCode), searchLower)
    || Includes(Lower(p.category), searchLower)
  }

  /** A row matches the search term as the user typed it. */
  predicate Matches(p: Product, term: string)
  {
    RowMatches(p, Lower(term))
  }

  /** `dataSource.filter(...)` with the row test above. */
  function Keep(ds: seq<Product>, searchLower: string): (r: seq<Product>)
    ensures IsSubsequence(r, ds)
    ensures forall i :: 0 <= i < |r| ==> RowMatches(r[i], searchLower)
    ensures forall i :: 0 <= i < |ds| && RowMatches(ds[i], searchLower) ==> ds[i] in r
    ensures forall x :: multiset(r)[x] == if RowMatches(x, searchLower) then multiset(ds)[x] else 0
    decreases |ds|
  {
    if ds == [] then []
    else
      var rest := Keep(ds[1..], searchLower);
      assert forall i :: 1 <= i < |ds| ==> ds[i] == ds[1..][i - 1];
      assert multiset(ds) == multiset{ds[0]} + multiset(ds[1..]) by {
        assert ds == [ds[0]] + ds[1..];
      }
      if RowMatches(ds[0], searchLower) then
        assert multiset([ds[0]] + rest) == multiset{ds[0]} + multiset(rest);
        [ds[0]] + rest
      else rest
  }

  /** `filteredProducts`: the whole data source for an empty term, otherwise the rows
      that match the term case-insensitively, in their original order. */
  function FilterProducts(ds: seq<Product>, term: string): (r: seq<Product>)
    ensures term == "" ==> r == ds
    ensures IsSubsequence(r, ds)
    ensures forall i :: 0 <= i < |r| ==> Matches(r[i], term)
    ensures forall i :: 0 <= i < |ds| && Matches(ds[i], term) ==> ds[i] in r
    ensures forall x :: multiset(r)[x] == if Matches(x, term) then multiset(ds)[x] else 0
  {
    if term == "" then
      SubsequenceReflexive(ds);
      assert forall x: Product :: Matches(x, term) by {
        forall x: Product ensures Matches(x, term) {
          assert OccursAt(Lower(x.name), Lower(term), 0);
        }
      }
      ds
    else Keep(ds, Lower(term))
  }

  /** Every row matches the empty term, so the early return for an empty term gives what
      the filter itself would give. */
  lemma {:induction false} EmptyTermKeepsAll(ds: seq<Product>)
    ensures Keep(ds, "") == ds
    decreases |ds|
  {
    if ds != [] {
      assert Includes(Lower(ds[0].name), "") by { assert OccursAt(Lower(ds[0].name), "", 0); }
      EmptyTermKeepsAll(ds[1..]);
    }
  }

  /** Whether a row matches does not depend on the case of the term. */
  lemma MatchIgnoresTermCase(p: Product, term: string)
    ensures Matches(p, Upper(term)) == Matches(p, term)
    ensures Matches(p, Lower(term)) == Matches(p, term)
  {
    LowerOfUpper(term);
    LowerIdempotent(term);
  }

  /** Whether a row matches does not depend on the case of its fields. */
  lemma MatchIgnoresFieldCase(p: Product, term: string)
    ensures Matches(p.(name := Upper(p.name), productCode := Upper(p.productCode),
                       category := Upper(p.category)), term) == Matches(p, term)
  {
    LowerOfUpper(p.name);
    LowerOfUpper(p.productCode);
    LowerOfUpper(p.category);
  }

  /** The numbers in "Showing {first}-{last} from {total} data". */
  datatype ShowingLabel = ShowingLabel(first: int, last: int, total: int)

  /** The 1-based page on which the k-th item (1-based) falls. */
  function PageOf(k: int): int
  {
    (k - 1) / PageSize + 1
  }

  function Min(a: int, b: int): int
  {
    if a <= b then a else b
  }

  /** The label for a page: for a page of at least 1 its range is exactly the items of
      that page that exist; it never goes past the total and never spans more than a page. */
  function Showing(page: int, total: int): (r: ShowingLabel)
    ensures r.first == (page - 1) * PageSize + 1
    ensures r.last == Min(page * PageSize, total)
    ensures r.total == total
    ensures r.last <= total
    ensures r.last - r.first + 1 <= PageSize
    ensures page >= 1 ==> r.first >= 1
    ensures page >= 1 ==> forall k :: r.first <= k <= r.last <==> 1 <= k <= total && PageOf(k) == page
  {
    var first := (page - 1) * PageSize + 1;
    var last := Min(page * PageSize, total);
    assert page >= 1 ==> forall k :: first <= k <= last <==> 1 <= k <= total && PageOf(k) == page by {
      if page >= 1 {
        forall k ensures first <= k <= last <==> 1 <= k <= total && PageOf(k) == page {
          PageOfBounds(k, page);
        }
      }
    }
    ShowingLabel(first, last, total)
  }

  /** Item k lies on page p exactly when it is one of the twelve positions of that page. */
  lemma PageOfBounds(k: int, page: int)
    requires page >= 1
    ensures k >= 1 ==> (PageOf(k) == page <==> (page - 1) * PageSize + 1 <= k <= page * PageSize)
  {
  }

  /** With nothing fetched the first page reads "1-0 from 0". */
  lemma EmptyFirstPageLabel()
    ensures Showing(1, 0) == ShowingLabel(1, 0, 0)
  {
  }

  /** A first page of 30 items reads "1-12 from 30". */
  lemma FullFirstPageLabel()
    ensures Showing(1, 30) == ShowingLabel(1, 12, 30)
  {
  }

  /** The status column's badge. */
  datatype Badge = Badge(text: string, bgClass: string, textClass: string, checkIcon: bool)

  function StatusBadge(status: bool): (r: Badge)
    ensures r.text == "Completed" <==> status
    ensures r.text == "Canceled" <==> !status
    ensures r.checkIcon == status
    ensures r.bgClass == (if status then "bg-green-50" else "bg-red-50")
    ensures r.textClass == (if status then "text-green-700" else "text-red-700")
  {
    var isCompleted := status == true;
    Badge(if isCompleted then "Completed" else "Canceled",
          if isCompleted then "bg-green-50" else "bg-red-50",
          if isCompleted then "text-green-700" else "text-red-700",
          isCompleted)
  }

  /** A selected row key (`React.Key`). */
  datatype Key = NumberKey(n: int) | StringKey(s: string)

  /** A transient toast; shown to the user, never stored. */
  datatype Level = Success | Info | Warning
  datatype Notice = Notice(level: Level, text: string)

  const ReloadedText: string := "Products reloaded"

  /** The table's own state (search term, selection) and the provider it reads from. */
  class TableView {
    const provider: ProductProvider
    var searchTerm: string
    var selectedRowKeys: seq<Key>

    constructor (provider: ProductProvider)
      ensures this.provider == provider
      ensures searchTerm == "" && selectedRowKeys == []
    {
      this.provider := provider;
      searchTerm := "";
      selectedRowKeys := [];
    }

    /** The rows the table shows: the whole data source while the search box is empty,
        otherwise exactly its matching rows, every copy, in their order. */
    function Rows(): (r: seq<Product>)
      reads this, provider
      ensures searchTerm == "" ==> r == DataSource(provider.products)
      ensures IsSubsequence(r, DataSource(provider.products))
      ensures forall i :: 0 <= i < |r| ==> Matches(r[i], searchTerm)
      ensures forall x :: multiset(r)[x] ==
                if Matches(x, searchTerm) then multiset(DataSource(provider.products))[x] else 0
    {
      FilterProducts(DataSource(provider.products), searchTerm)
    }

    /** The label under the table, for the provider's page and item count. */
    function Label(): (r: ShowingLabel)
      reads this, provider
      ensures r.first == (provider.currentPage - 1) * PageSize + 1
      ensures r.last == Min(provider.currentPage * PageSize, provider.totalItems)
      ensures r.total == provider.totalItems
      ensures r.last <= provider.totalItems && r.last - r.first + 1 <= PageSize
    {
      Showing(provider.currentPage, provider.totalItems)
    }

    /** `onSelectChange`: the selection becomes exactly the widget's new key list. */
    method OnSelectChange(keys: seq<Key>)
      modifies this`selectedRowKeys
      ensures selectedRowKeys == keys
      ensures searchTerm == old(searchTerm)
    {
      selectedRowKeys := keys;
    }

    /** `handleSearch`: the search term becomes the input's value; the selection stays. */
    method HandleSearch(value: string)
      modifies this`searchTerm
      ensures searchTerm == value
      ensures selectedRowKeys == old(selectedRowKeys)
      ensures Rows() == FilterProducts(DataSource(provider.products), value)
    {
      searchTerm := value;
    }

    /** `handleReload`: back to page 1 (which refetches only if the page was another one)
        and a success toast. */
    method HandleReload() returns (refetch: bool, notice: Notice)
      requires provider.Valid()
      modifies provider`currentPage
      ensures provider.Valid()
      ensures provider.currentPage == 1
      ensures Label().first == 1
      ensures refetch <==> old(provider.currentPage) != 1
      ensures notice == Notice(Success, ReloadedText)
    {
      refetch := provider.SetCurrentPage(1);
      notice := Notice(Success, ReloadedText);
    }

    /** `handlePaginationChange`: the requested page goes to the provider unchanged. */
    method HandlePaginationChange(page: int) returns (refetch: bool)
      requires provider.Valid()
      modifies provider`currentPage
      ensures provider.Valid()
      ensures provider.currentPage == page
      ensures refetch <==> old(provider.currentPage) != page
    {
      refetch := provider.SetCurrentPage(page);
    }

    /** `handleProductAction`: edit and delete only raise a toast naming the product; any
        other action does nothing. No state changes in any case. */
    method HandleProductAction(action: string, record: Product) returns (notice: Option<Notice>)
      ensures notice.Some? <==> action == "edit" || action == "delete"
      ensures action == "edit" ==> notice == Some(Notice(Info, "Edit product: " + record.name))
      ensures action == "delete" ==> notice == Some(Notice(Warning, "Delete product: " + record.name))
    {
      if action == "edit" {
        notice := Some(Notice(Info, "Edit product: " + record.name));
      } else if action == "delete" {
        notice := Some(Notice(Warning, "Delete product: " + record.name));
      } else {
        notice := None;
      }
    }
  }
}
