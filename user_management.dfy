/** The user-management page: the list query it sends, its search, role and page handlers,
    the index range and pagination of its table, the status switch and the display texts of a
    user's status and role. */
module UserManagement {
  import opened Wrappers
  import opened JsText
  import opened UrlEncoding
  import opened QueryParams
  import opened ListPages

  // ---------------------------------------------------------------- the list query

  /** The role filter's value when no role is chosen: the page starts with "", the table's
      select shows "all". */
  const AllRoles := "all"

  /** The parameter list the page sends: page and limit as decimal text, then the trimmed
      search text when it is not blank, then the upper-cased role when a role other than
      "all" is chosen. */
  function UserParams(page: int, limit: int, searchTerm: string, filter: string): seq<QueryParam> {
    [QueryParam("page", Text(IntToString(page))), QueryParam("limit", Text(IntToString(limit)))]
    + Optional(Trim(searchTerm) != "", QueryParam("searchTerm", Text(Trim(searchTerm))))
    + Optional(filter != "" && filter != AllRoles, QueryParam("role", Text(ToUpperCase(filter))))
  }

  /** What the list query carries, name by name: the page and the limit as decimal text, the
      trimmed search text exactly when it is not blank, the upper-cased role exactly when the
      filter is neither empty nor "all", and nothing else. */
  lemma UserParamsValues(page: int, limit: int, searchTerm: string, filter: string, name: string)
    ensures var e := Entries(UserParams(page, limit, searchTerm, filter));
      && Values(e, "page") == [IntToString(page)]
      && Values(e, "limit") == [IntToString(limit)]
      && Values(e, "searchTerm") == (if Trim(searchTerm) != "" then [Trim(searchTerm)] else [])
      && Values(e, "role") == (if filter != "" && filter != "all" then [ToUpperCase(filter)] else [])
      && (name !in {"page", "limit", "searchTerm", "role"} ==> Values(e, name) == [])
  {
    var p1 := QueryParam("page", Text(IntToString(page)));
    var p2 := QueryParam("limit", Text(IntToString(limit)));
    var p3 := QueryParam("searchTerm", Text(Trim(searchTerm)));
    var p4 := QueryParam("role", Text(ToUpperCase(filter)));
    ValuesOfNamedListQuery(p1, p2, Trim(searchTerm) != "", p3, filter != "" && filter != AllRoles, p4, name);
  }

  /** The page's initial filter "" and the table's "all" ask for the same list: every role. */
  lemma NoRoleFilterEitherWay(page: int, limit: int, searchTerm: string)
    ensures Values(Entries(UserParams(page, limit, searchTerm, "")), "role") == []
    ensures UserParams(page, limit, searchTerm, "") == UserParams(page, limit, searchTerm, AllRoles)
  {
    var fixed := [QueryParam("page", Text(IntToString(page))), QueryParam("limit", Text(IntToString(limit)))]
      + Optional(Trim(searchTerm) != "", QueryParam("searchTerm", Text(Trim(searchTerm))));
    assert UserParams(page, limit, searchTerm, "") == fixed == UserParams(page, limit, searchTerm, AllRoles);
    UserParamsValues(page, limit, searchTerm, "", "role");
  }

  // ---------------------------------------------------------------- the page state

  /** The page's state: the page number, the page size, the search text and the role filter. */
  class UserManagementPage {
    var page: int
    var limit: int
    var searchTerm: string
    var filter: string

    constructor ()
      ensures page == 1 && limit == 10 && searchTerm == "" && filter == ""
    {
      page := 1;
      limit := 10;
      searchTerm := "";
      filter := "";
    }

    /** The query built by pushing onto the list, as the page does during rendering. */
    method BuildQueryParams() returns (params: seq<QueryParam>)
      ensures params == UserParams(page, limit, searchTerm, filter)
      ensures params[0] == QueryParam("page", Text(IntToString(page)))
      ensures params[1] == QueryParam("limit", Text(IntToString(limit)))
    {
      var search := QueryParam("searchTerm", Text(Trim(searchTerm)));
      var role := QueryParam("role", Text(ToUpperCase(filter)));
      params := [QueryParam("page", Text(IntToString(page))), QueryParam("limit", Text(IntToString(limit)))];
      if Truthy(Trim(searchTerm)) {
        params := params + [search];
      }
      assert params[..2] + Optional(Trim(searchTerm) != "", search) == params;
      if Truthy(filter) && filter != AllRoles {
        params := params + [role];
      }
    }

    /** A new search text always returns to the first page. */
    method HandleSearch(value: string)
      modifies this
      ensures searchTerm == value && page == 1
      ensures limit == old(limit) && filter == old(filter)
    {
      searchTerm := value;
      page := 1;
    }

    /** A new role filter always returns to the first page. */
    method HandleRoleFilter(value: string)
      modifies this
      ensures filter == value && page == 1
      ensures limit == old(limit) && searchTerm == old(searchTerm)
    {
      filter := value;
      page := 1;
    }

    /** The table's page buttons set exactly the page they ask for. */
    method HandlePageChange(newPage: int)
      modifies this
      ensures page == newPage
      ensures limit == old(limit) && searchTerm == old(searchTerm) && filter == old(filter)
    {
      page := newPage;
    }
  }

  /** The table's own copy of what is typed and chosen; each change is passed on to the page. */
  class TableControls {
    var localSearchTerm: string
    var selectedFilter: string

    constructor ()
      ensures localSearchTerm == "" && selectedFilter == AllRoles
    {
      localSearchTerm := "";
      selectedFilter := AllRoles;
    }

    method HandleSearch(value: string, page: UserManagementPage)
      modifies this, page
      ensures localSearchTerm == value && selectedFilter == old(selectedFilter)
      ensures page.searchTerm == value && page.page == 1
      ensures page.limit == old(page.limit) && page.filter == old(page.filter)
    {
      localSearchTerm := value;
      page.HandleSearch(value);
    }

    method HandleFilter(value: string, page: UserManagementPage)
      modifies this, page
      ensures selectedFilter == value && localSearchTerm == old(localSearchTerm)
      ensures page.filter == value && page.page == 1
      ensures page.limit == old(page.limit) && page.searchTerm == old(page.searchTerm)
    {
      selectedFilter := value;
      page.HandleRoleFilter(value);
    }
  }

  // ---------------------------------------------------------------- index range and pagination

  /** The index of the first item of the current page. */
  function StartIndex(currentPage: int, itemsPerPage: int): int {
    (currentPage - 1) * itemsPerPage
  }

  /** One past the index of the last item of the current page. */
  function EndIndex(currentPage: int, itemsPerPage: int, totalItems: int): int {
    var start := StartIndex(currentPage, itemsPerPage);
    if start + itemsPerPage <= totalItems then start + itemsPerPage else totalItems
  }

  /** On a page that holds items, the range is non-empty, at most one page long and within the
      list; and the range of a full page ends where the next page's begins. */
  lemma IndexRange(currentPage: int, itemsPerPage: int, totalItems: int)
    requires currentPage >= 1 && itemsPerPage >= 1
    requires StartIndex(currentPage, itemsPerPage) < totalItems
    ensures 0 <= StartIndex(currentPage, itemsPerPage) < EndIndex(currentPage, itemsPerPage, totalItems) <= totalItems
    ensures EndIndex(currentPage, itemsPerPage, totalItems) - StartIndex(currentPage, itemsPerPage) <= itemsPerPage
    ensures currentPage * itemsPerPage <= totalItems ==>
      EndIndex(currentPage, itemsPerPage, totalItems) == StartIndex(currentPage + 1, itemsPerPage)
  {
  }

  /** Previous asks for the page before, without clamping. */
  function PreviousTarget(currentPage: int): int {
    currentPage - 1
  }

  /** Next asks for the page after, without clamping. */
  function NextTarget(currentPage: int): int {
    currentPage + 1
  }

  predicate PreviousDisabled(currentPage: int, isLoading: bool) {
    currentPage == 1 || isLoading
  }

  predicate NextDisabled(currentPage: int, totalPages: int, isLoading: bool) {
    currentPage == totalPages || isLoading
  }

  /** From a page of the list, an enabled Previous or Next button asks for a page of the list,
      one away from the current one; while loading neither is enabled. */
  lemma NavigationStaysInRange(currentPage: int, totalPages: int, isLoading: bool)
    requires 1 <= currentPage <= totalPages
    ensures !PreviousDisabled(currentPage, isLoading) ==> 1 <= PreviousTarget(currentPage) <= totalPages
    ensures !NextDisabled(currentPage, totalPages, isLoading) ==> 1 <= NextTarget(currentPage) <= totalPages
    ensures isLoading ==> PreviousDisabled(currentPage, isLoading) && NextDisabled(currentPage, totalPages, isLoading)
  {
  }

  // ---------------------------------------------------------------- users and their status

  /** A user as the list returns it; `status` is "ACTIVE", "INACTIVE" or "BLOCKED" and `role`
      is "PARENT" or "NANNY", but the page handles any text. */
  datatype User = User(id: string, name: string, email: string, role: string, status: string)

  const UserStatuses: set<string> := {"ACTIVE", "INACTIVE", "BLOCKED"}

  /** The status switch of a row is on exactly for an active user. */
  predicate SwitchChecked(status: string) {
    status == "ACTIVE"
  }

  /** The status a switch change asks for: turning it on activates, turning it off blocks. */
  function StatusTarget(checked: bool): (status: string)
    ensures SwitchChecked(status) == checked
    ensures status in UserStatuses
  {
    if checked then "ACTIVE" else "BLOCKED"
  }

  /** The status-update mutation: the user's id and the body `{ status }`. */
  datatype StatusUpdate = StatusUpdate(userId: string, status: string)

  /** A switch change: once the confirmation dialog is answered, the mutation is issued for that
      user exactly when the answer is yes, asking for the status the switch now shows. */
  function StatusChange(user: User, checked: bool, confirmed: bool): (r: Option<StatusUpdate>)
    ensures r.Some? <==> confirmed
    ensures r.Some? ==> r.value.userId == user.id && SwitchChecked(r.value.status) == checked
    ensures r.Some? ==> r.value.status in UserStatuses
  {
    if confirmed then Some(StatusUpdate(user.id, StatusTarget(checked))) else None
  }

  /** Flipping a row's switch and confirming asks for a status whose switch is the other way
      round: an active user is blocked (never made "INACTIVE"), any other user is activated. */
  lemma ToggleFlipsSwitch(user: User)
    ensures var r := StatusChange(user, !SwitchChecked(user.status), true);
      && r.Some?
      && SwitchChecked(r.value.status) != SwitchChecked(user.status)
      && (user.status == "ACTIVE" ==> r.value.status == "BLOCKED")
      && (user.status != "ACTIVE" ==> r.value.status == "ACTIVE")
  {
  }

  /** The status text of a row: "ACTIVE" reads "Active", "BLOCKED" reads "Inactive", any
      other status is shown as it is. */
  function StatusDisplay(status: string): (r: string)
    ensures r == "Active" <==> status in {"ACTIVE", "Active"}
    ensures r == "Inactive" <==> status in {"BLOCKED", "Inactive"}
    ensures status !in {"ACTIVE", "BLOCKED"} ==> r == status
  {
    if status == "ACTIVE" then "Active"
    else if status == "BLOCKED" then "Inactive"
    else status
  }

  /** The role text of a row: "PARENT" reads "Parent", "NANNY" reads "Nanny", any other role is
      shown as it is. */
  function RoleDisplay(role: string): (r: string)
    ensures r == "Parent" <==> role in {"PARENT", "Parent"}
    ensures r == "Nanny" <==> role in {"NANNY", "Nanny"}
    ensures role !in {"PARENT", "NANNY"} ==> r == role
  {
    if role == "PARENT" then "Parent"
    else if role == "NANNY" then "Nanny"
    else role
  }

  /** The three statuses a user can have read differently, and so do the two roles. */
  lemma DisplaysTellValuesApart(a: string, b: string)
    ensures a in UserStatuses && b in UserStatuses && StatusDisplay(a) == StatusDisplay(b) ==> a == b
    ensures a in {"PARENT", "NANNY"} && b in {"PARENT", "NANNY"} && RoleDisplay(a) == RoleDisplay(b) ==> a == b
  {
  }
}
