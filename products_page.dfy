/**
 * The product list page: its pagination arithmetic, the admin gate on rows
 * and the handling of the paged fetch's answer.
 *
 * `fetchProducts` goes straight to the HTTP client with a query string; the
 * settled answer of that call is the `response` parameter, and the query the
 * page asked for is recorded in `queries`.
 */
module ProductsPage {
  import opened Types
  import opened Api

  /** The two role names the page treats as administrators. */
  const SuperAdminRole: string := "SuperAdmin"
  const AdminRole: string := "Admin"

  const InitialPageSize: int := 10
  const ProductsPath: string := "/products/"

  /** `Math.ceil(a / b)` for a non-negative count and a positive page size. */
  function CeilDiv(a: int, b: int): (r: int)
    requires a >= 0 && b > 0
    ensures r >= 0
    ensures (r - 1) * b < a <= r * b
  {
    var r := (a + b - 1) / b;
    assert a + b - 1 == r * b + (a + b - 1) % b;
    assert (r - 1) * b == r * b - b;
    r
  }

  /** The page "Previous" selects: one back, never below the first page. */
  function PrevPage(current: int): (p: int)
    ensures p >= 1
    ensures current > 1 ==> p == current - 1
    ensures current <= 1 ==> p == 1
  {
    if current - 1 > 1 then current - 1 else 1
  }

  /** The page "Next" selects: one on, never past the last page. */
  function NextPage(current: int, totalPages: int): (p: int)
    ensures p <= totalPages
    ensures current + 1 <= totalPages ==> p == current + 1
    ensures current + 1 > totalPages ==> p == totalPages
  {
    if totalPages < current + 1 then totalPages else current + 1
  }

  /** `role === Roles.SuperAdmin || role === Roles.Admin`; an administrator is signed in. */
  function IsAdmin(role: Option<string>): (r: bool)
    ensures r <==> role.Some? && (role.value == SuperAdminRole || role.value == AdminRole)
    ensures r ==> Truthy(role)
  {
    role == Some(SuperAdminRole) || role == Some(AdminRole)
  }

  /** `Array.from({ length: n }, (_, i) => i + 1)`: the page links 1..n. */
  function PageNumbers(n: int): (r: seq<int>)
    ensures |r| == if n > 0 then n else 0
    ensures forall i :: 0 <= i < |r| ==> r[i] == i + 1
  {
    if n <= 0 then [] else PageNumbers(n - 1) + [n]
  }

  /** The pagination control is shown only when it would list more than one page link. */
  function ShowPagination(totalPages: int): (r: bool)
    ensures r <==> |PageNumbers(totalPages)| > 1
  {
    totalPages > 1
  }

  /** The request `fetchProducts` issues: page, page size and search term. */
  datatype PageQuery = PageQuery(page: int, pageSize: int, search: string)

  /** What the server must send for the page count to be a number: a non-negative count and a positive size. */
  predicate WellFormed(response: Settled<ApiResponse<ProductListResponse>>)
  {
    Accepted(response) ==>
      response.value.result.value.totalCount >= 0 && response.value.result.value.pageSize > 0
  }

  /** Prev and next keep a page that lies in 1..totalPages inside that range. */
  lemma ClampsStayInRange(current: int, totalPages: int)
    requires 1 <= current <= totalPages
    ensures 1 <= PrevPage(current) <= totalPages
    ensures 1 <= NextPage(current, totalPages) <= totalPages
    ensures PrevPage(current) <= current <= NextPage(current, totalPages)
  {
  }

  /** 95 products at 10 per page fill 10 pages. */
  lemma NinetyFiveAtTenIsTenPages()
    ensures CeilDiv(95, 10) == 10
  {
  }

  /** Every listed page link lies in 1..totalPages. */
  lemma PageLinksInRange(totalPages: int, i: int)
    requires 0 <= i < |PageNumbers(totalPages)|
    ensures 1 <= PageNumbers(totalPages)[i] <= totalPages
  {
  }

  class ProductsPage {
    var products: seq<Product>
    var totalPages: int
    var currentPage: int
    const pageSize: int
    var isLoading: bool
    var searchTerm: string
    /** The targets of `router.push`, in order. */
    var pushes: seq<string>
    /** The paged queries sent, in order. */
    var queries: seq<PageQuery>

    /** The current page never drops below the first. */
    predicate Valid()
      reads this
    {
      currentPage >= 1
    }

    constructor ()
      ensures Valid()
      ensures products == [] && totalPages == 1 && currentPage == 1 && pageSize == InitialPageSize
      ensures isLoading && searchTerm == "" && pushes == [] && queries == []
    {
      products := [];
      totalPages := 1;
      currentPage := 1;
      pageSize := InitialPageSize;
      isLoading := true;
      searchTerm := "";
      pushes := [];
      queries := [];
    }

    /**
     * `fetchProducts`: on a successful answer, take the items and divide the
     * server's count by the server's page size; on an error or a rejection,
     * keep what was shown. Loading ends either way.
     */
    method FetchProducts(response: Settled<ApiResponse<ProductListResponse>>)
      requires WellFormed(response)
      modifies this
      ensures queries == old(queries) + [PageQuery(currentPage, pageSize, searchTerm)]
      ensures Accepted(response) ==>
        products == response.value.result.value.items &&
        totalPages == CeilDiv(response.value.result.value.totalCount, response.value.result.value.pageSize)
      ensures !Accepted(response) ==> products == old(products) && totalPages == old(totalPages)
      ensures !isLoading
      ensures currentPage == old(currentPage) && searchTerm == old(searchTerm) && pushes == old(pushes)
    {
      isLoading := true;
      queries := queries + [PageQuery(currentPage, pageSize, searchTerm)];
      if Accepted(response) {
        var listed := response.value.result.value;
        products := listed.items;
        totalPages := CeilDiv(listed.totalCount, listed.pageSize);
      }
      isLoading := false;
    }

    /** The effect on `[role, currentPage, searchTerm]`: fetch only once a role is known, a truthy one. */
    method Reload(role: Option<string>, response: Settled<ApiResponse<ProductListResponse>>)
      requires WellFormed(response)
      modifies this
      ensures Truthy(role) ==>
        && queries == old(queries) + [PageQuery(currentPage, pageSize, searchTerm)] && !isLoading
        && (Accepted(response) ==>
              products == response.value.result.value.items &&
              totalPages == CeilDiv(response.value.result.value.totalCount, response.value.result.value.pageSize))
        && (!Accepted(response) ==> products == old(products) && totalPages == old(totalPages))
      ensures !Truthy(role) ==>
        queries == old(queries) && products == old(products) && totalPages == old(totalPages) && isLoading == old(isLoading)
      ensures currentPage == old(currentPage) && searchTerm == old(searchTerm) && pushes == old(pushes)
    {
      if Truthy(role) {
        FetchProducts(response);
      }
    }

    /** `handlePageChange`, which every pagination control calls with a page of at least 1. */
    method HandlePageChange(page: int)
      requires page >= 1
      modifies this
      ensures Valid()
      ensures currentPage == page
      ensures products == old(products) && totalPages == old(totalPages) && searchTerm == old(searchTerm)
      ensures isLoading == old(isLoading) && pushes == old(pushes) && queries == old(queries)
    {
      currentPage := page;
    }

    /** "Previous", shown with the pagination control. */
    method GoPrevious()
      requires Valid() && ShowPagination(totalPages)
      modifies this
      ensures Valid()
      ensures currentPage == PrevPage(old(currentPage))
      ensures old(currentPage) <= totalPages ==> currentPage <= totalPages
      ensures products == old(products) && totalPages == old(totalPages) && searchTerm == old(searchTerm)
      ensures isLoading == old(isLoading) && pushes == old(pushes) && queries == old(queries)
    {
      HandlePageChange(PrevPage(currentPage));
    }

    /** "Next", shown with the pagination control. */
    method GoNext()
      requires Valid() && ShowPagination(totalPages)
      modifies this
      ensures Valid()
      ensures currentPage == NextPage(old(currentPage), totalPages)
      ensures old(currentPage) <= totalPages ==> currentPage <= totalPages
      ensures products == old(products) && totalPages == old(totalPages) && searchTerm == old(searchTerm)
      ensures isLoading == old(isLoading) && pushes == old(pushes) && queries == old(queries)
    {
      HandlePageChange(NextPage(currentPage, totalPages));
    }

    /** A numbered page link, the `i`-th of those listed. */
    method GoToPage(i: int)
      requires ShowPagination(totalPages) && 0 <= i < |PageNumbers(totalPages)|
      modifies this
      ensures Valid()
      ensures currentPage == i + 1 && currentPage <= totalPages
      ensures products == old(products) && totalPages == old(totalPages) && searchTerm == old(searchTerm)
      ensures isLoading == old(isLoading) && pushes == old(pushes) && queries == old(queries)
    {
      HandlePageChange(PageNumbers(totalPages)[i]);
    }

    /** Editing the search box starts again from the first page. */
    method ChangeSearch(term: string)
      modifies this
      ensures Valid()
      ensures currentPage == 1 && searchTerm == term
      ensures products == old(products) && totalPages == old(totalPages)
      ensures isLoading == old(isLoading) && pushes == old(pushes) && queries == old(queries)
    {
      currentPage := 1;
      searchTerm := term;
    }

    /** A row opens the product's page for administrators only. */
    method HandleProductClick(role: Option<string>, productId: string)
      modifies this
      ensures IsAdmin(role) ==> pushes == old(pushes) + [ProductsPath + productId]
      ensures !IsAdmin(role) ==> pushes == old(pushes)
      ensures products == old(products) && totalPages == old(totalPages) && currentPage == old(currentPage)
      ensures searchTerm == old(searchTerm) && isLoading == old(isLoading) && queries == old(queries)
    {
      if IsAdmin(role) {
        pushes := pushes + [ProductsPath + productId];
      }
    }
  }
}
