/** The background-check page: the list query it sends, its search, status and page handlers
    and the pagination of its table. */
module BackgroundCheck {
  import opened Wrappers
  import opened JsText
  import opened UrlEncoding
  import opened QueryParams
  import opened ListPages
  import VerifyApi

  /** The parameter list the page sends: the page as decimal text and the limit as a number,
      then the search text as typed (not trimmed) when it is not blank, then the status
      filter as chosen (not upper-cased) when it is neither empty nor "all". */
  function CheckParams(page: int, limit: int, search: string, status: string): seq<QueryParam> {
    [QueryParam("page", Text(IntToString(page))), QueryParam("limit", Number(limit))]
    + Optional(Trim(search) != "", QueryParam("searchTerm", Text(search)))
    + Optional(status != "" && status != "all", QueryParam("status", Text(status)))
  }

  /** What the list query carries, name by name: the page and the limit as decimal text, the
      search text untouched exactly when it is not blank, the status exactly when it is
      neither empty nor "all", and nothing else. */
  lemma CheckParamsValues(page: int, limit: int, search: string, status: string, name: string)
    ensures var e := Entries(CheckParams(page, limit, search, status));
      && Values(e, "page") == [IntToString(page)]
      && Values(e, "limit") == [IntToString(limit)]
      && Values(e, "searchTerm") == (if Trim(search) != "" then [search] else [])
      && Values(e, "status") == (if status != "" && status != "all" then [status] else [])
      && (name !in {"page", "limit", "searchTerm", "status"} ==> Values(e, name) == [])
  {
    var p1 := QueryParam("page", Text(IntToString(page)));
    var p2 := QueryParam("limit", Number(limit));
    var p3 := QueryParam("searchTerm", Text(search));
    var p4 := QueryParam("status", Text(status));
    ValuesOfNamedListQuery(p1, p2, Trim(search) != "", p3, status != "" && status != "all", p4, name);
  }

  /** The request the list endpoint makes of the page's list: every parameter the page pushes
      arrives once, with the numeric limit written as decimal text, and nothing else is sent. */
  lemma ChecksRequestCarriesParams(page: int, limit: int, search: string, status: string, name: string)
    ensures var r := VerifyApi.GetAllChecksRequest(CheckParams(page, limit, search, status));
      && Values(r.params, "page") == [IntToString(page)]
      && Values(r.params, "limit") == [IntToString(limit)]
      && Values(r.params, "searchTerm") == (if Trim(search) != "" then [search] else [])
      && Values(r.params, "status") == (if status != "" && status != "all" then [status] else [])
      && (name !in {"page", "limit", "searchTerm", "status"} ==> Values(r.params, name) == [])
  {
    var p1 := QueryParam("page", Text(IntToString(page)));
    var p2 := QueryParam("limit", Number(limit));
    var p3 := QueryParam("searchTerm", Text(search));
    var p4 := QueryParam("status", Text(status));
    ObjectOfNamedListQuery(p1, p2, Trim(search) != "", p3, status != "" && status != "all", p4, name);
  }

  /** The page's state: the page number, the search text, the status filter and the page
      size. */
  class BackgroundCheckPage {
    var page: int
    var search: string
    var status: string
    var limit: int

    constructor ()
      ensures page == 1 && search == "" && status == "" && limit == 10
    {
      page := 1;
      search := "";
      status := "";
      limit := 10;
    }

    /** The query built by pushing onto the list, as the page does during rendering. */
    method BuildParams() returns (params: seq<QueryParam>)
      ensures params == CheckParams(page, limit, search, status)
      ensures params[1] == QueryParam("limit", Number(limit))
    {
      var searchParam := QueryParam("searchTerm", Text(search));
      var statusParam := QueryParam("status", Text(status));
      params := [QueryParam("page", Text(IntToString(page))), QueryParam("limit", Number(limit))];
      if Truthy(Trim(search)) {
        params := params + [searchParam];
      }
      assert params[..2] + Optional(Trim(search) != "", searchParam) == params;
      if Truthy(status) && status != "all" {
        params := params + [statusParam];
      }
    }

    /** `onSearch`: a new search text always returns to the first page. */
    method OnSearch(v: string)
      modifies this
      ensures search == v && page == 1
      ensures status == old(status) && limit == old(limit)
    {
      search := v;
      page := 1;
    }

    /** `onFilter`: a new status filter always returns to the first page. */
    method OnFilter(v: string)
      modifies this
      ensures status == v && page == 1
      ensures search == old(search) && limit == old(limit)
    {
      status := v;
      page := 1;
    }

    /** The table's page buttons set exactly the page they ask for. */
    method HandlePageChange(newPage: int)
      modifies this
      ensures page == newPage
      ensures search == old(search) && status == old(status) && limit == old(limit)
    {
      page := newPage;
    }
  }

  // ---------------------------------------------------------------- pagination

  /** Prev is disabled on the first page only; the page's loading state plays no part. */
  predicate PreviousDisabled(currentPage: int) {
    currentPage == 1
  }

  /** Next is disabled on the last page only. */
  predicate NextDisabled(currentPage: int, totalPages: int) {
    currentPage == totalPages
  }

  /** When the controls are drawn, from a page of the list an enabled Prev asks for the page
      before and an enabled Next for the page after, both pages of the list; on the first page
      only Next is enabled and on the last only Prev. */
  lemma PaginationStaysInRange(currentPage: int, totalPages: int)
    requires PaginationVisible(totalPages) && 1 <= currentPage <= totalPages
    ensures !PreviousDisabled(currentPage) ==> 1 <= currentPage - 1 <= totalPages
    ensures !NextDisabled(currentPage, totalPages) ==> 1 <= currentPage + 1 <= totalPages
    ensures currentPage == 1 ==> PreviousDisabled(currentPage) && !NextDisabled(currentPage, totalPages)
    ensures currentPage == totalPages ==> NextDisabled(currentPage, totalPages) && !PreviousDisabled(currentPage)
  {
  }
}
