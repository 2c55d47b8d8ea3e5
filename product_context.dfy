/** The product-list provider: six state slots and the fetch cycle that updates them.
    The HTTP request and `response.json()` are replaced by an abstract outcome value. */
module ProductContext {
  import opened Wrappers

  /** One product as the listing endpoint reports it. */
  datatype Product = Product(
    id: int,
    name: string,
    price: real,
    productCode: string,
    barcode: string,
    stock: int,
    status: bool,
    category: string,
    description: string,
    imageUrl: string,
    createdAt: Option<string>)

  /** A response body that is a JSON object; each field is `None` when absent, null or
      (for `data`) otherwise falsy. An array, even an empty one, is truthy. */
  datatype Envelope = Envelope(data: Option<seq<Product>>, totalPages: Option<int>, totalItems: Option<int>)

  /** What a `catch` clause can receive: an `Error` instance with its message, or any
      other thrown value. */
  datatype Thrown = ErrorObject(message: string) | NonError

  /** How the awaited part of one fetch ends. */
  datatype FetchOutcome =
    | NotOk                            // `response.ok` is false
    | Parsed(body: Option<Envelope>)   // `response.json()` resolved; `None` for a non-object body
    | Threw(thrown: Thrown)            // `fetch` or `response.json()` threw

  const FailedToFetch: string := "Failed to fetch products"
  const NoDataMessage: string := "Veri alınamadı"

  /** `data && data.data`: the envelope carries a product list. */
  predicate WellFormed(body: Option<Envelope>)
  {
    body.Some? && body.value.data.Some?
  }

  /** `totalPages || 1`: the reported page count, or 1 when it is absent or 0; never 0. */
  function PagesOrOne(v: Option<int>): (r: int)
    ensures r != 0
    ensures r == 1 <==> (v.None? || v.value == 0 || v.value == 1)
    ensures v.Some? && v.value != 0 ==> r == v.value
  {
    match v
    case Some(n) => if n != 0 then n else 1
    case None => 1
  }

  /** `totalItems || 0`: the reported item count, or 0 when it is absent. */
  function ItemsOrZero(v: Option<int>): (r: int)
    ensures v.Some? ==> r == v.value
    ensures v.None? ==> r == 0
  {
    match v
    case Some(n) => if n != 0 then n else 0
    case None => 0
  }

  /** The message the `catch` clause stores: an `Error`'s own message, otherwise the
      fixed fallback text. */
  function CaughtMessage(t: Thrown): (r: string)
    ensures t.ErrorObject? ==> r == t.message
    ensures t.NonError? ==> r == NoDataMessage
  {
    match t
    case ErrorObject(m) => m
    case NonError => NoDataMessage
  }

  /** The provider's state. Each field is one `useState` slot. */
  class ProductProvider {
    var products: seq<Product>
    var loading: bool
    var error: Option<string>
    var currentPage: int
    var totalPages: int
    var totalItems: int

    /** Every fallback writes 1 and `totalPages || 1` is never 0, so the page count never
        becomes 0. */
    ghost predicate Valid()
      reads this
    {
      totalPages != 0
    }

    /** The slots as they are on first render. */
    constructor ()
      ensures Valid()
      ensures products == [] && loading && error == None
      ensures currentPage == 1 && totalPages == 1 && totalItems == 0
    {
      products := [];
      loading := true;
      error := None;
      currentPage := 1;
      totalPages := 1;
      totalItems := 0;
    }

    /** `setCurrentPage`. `refetch` tells whether the effect that depends on the page runs
        again: only when the page actually changed. */
    method SetCurrentPage(page: int) returns (refetch: bool)
      requires Valid()
      modifies this`currentPage
      ensures Valid()
      ensures currentPage == page
      ensures refetch <==> page != old(currentPage)
    {
      refetch := page != currentPage;
      currentPage := page;
    }

    /** The first two statements of the `try` block. */
    method BeginFetch()
      requires Valid()
      modifies this`loading, this`error
      ensures Valid()
      ensures loading && error == None
    {
      loading := true;
      error := None;
    }

    /** Everything after the awaited request: the branch taken for the outcome, the
        `catch` clause and the `finally` clause. */
    method Settle(outcome: FetchOutcome)
      requires Valid()
      modifies this`products, this`loading, this`error, this`totalPages, this`totalItems
      ensures Valid()
      ensures !loading
      ensures outcome.NotOk? ==>
        && error == Some(FailedToFetch) && products == []
        && totalPages == old(totalPages) && totalItems == old(totalItems)
      ensures outcome.Threw? ==>
        && error == Some(CaughtMessage(outcome.thrown)) && products == []
        && totalPages == old(totalPages) && totalItems == old(totalItems)
      ensures outcome.Parsed? && WellFormed(outcome.body) ==>
        && error == old(error)
        && products == outcome.body.value.data.value
        && totalPages == PagesOrOne(outcome.body.value.totalPages)
        && totalItems == ItemsOrZero(outcome.body.value.totalItems)
      ensures outcome.Parsed? && !WellFormed(outcome.body) ==>
        && error == old(error) && products == [] && totalPages == 1 && totalItems == 0
    {
      match outcome {
        case NotOk =>
          // the non-OK branch throws an Error whose message the catch clause stores
          error := Some(CaughtMessage(ErrorObject(FailedToFetch)));
          products := [];
        case Threw(t) =>
          error := Some(CaughtMessage(t));
          products := [];
        case Parsed(body) =>
          if WellFormed(body) {
            products := body.value.data.value;
            totalPages := PagesOrOne(body.value.totalPages);
            totalItems := ItemsOrZero(body.value.totalItems);
          } else {
            products := [];
            totalPages := 1;
            totalItems := 0;
          }
      }
      loading := false;
    }

    /** One complete run of `fetchProducts` for the current page. */
    method FetchProducts(outcome: FetchOutcome)
      requires Valid()
      modifies this`products, this`loading, this`error, this`totalPages, this`totalItems
      ensures Valid()
      ensures !loading && currentPage == old(currentPage)
      ensures error == None <==> outcome.Parsed?
      ensures error.Some? ==> products == []
      ensures error.Some? ==> totalPages == old(totalPages) && totalItems == old(totalItems)
      ensures outcome.NotOk? ==> error == Some(FailedToFetch)
      ensures outcome.Threw? ==> error == Some(CaughtMessage(outcome.thrown))
      ensures outcome.Parsed? && WellFormed(outcome.body) ==>
        && products == outcome.body.value.data.value
        && totalPages == PagesOrOne(outcome.body.value.totalPages)
        && totalItems == ItemsOrZero(outcome.body.value.totalItems)
      ensures outcome.Parsed? && !WellFormed(outcome.body) ==>
        products == [] && totalPages == 1 && totalItems == 0
    {
      BeginFetch();
      Settle(outcome);
    }
  }
}
