/** The booking-management page: the list query it sends, the rows it makes of the bookings it
    receives, and its pagination. */
module BookingManagement {
  import opened Wrappers
  import opened JsText
  import opened JsNumbers
  import opened UrlEncoding
  import opened QueryParams

  // ---------------------------------------------------------------- statuses

  /** The four statuses a row can show. */
  datatype BookingStatus = Completed | Confirmed | Pending | Cancelled

  function StatusWord(s: BookingStatus): string {
    match s
    case Completed => "completed"
    case Confirmed => "confirmed"
    case Pending => "pending"
    case Cancelled => "cancelled"
  }

  /** The names every plain JavaScript object inherits from `Object.prototype`. */
  const PrototypeMembers: set<string> := {
    "constructor", "hasOwnProperty", "isPrototypeOf", "propertyIsEnumerable", "toLocaleString",
    "toString", "valueOf", "__proto__", "__defineGetter__", "__defineSetter__",
    "__lookupGetter__", "__lookupSetter__"
  }

  /** What `map[apiStatus] || 'pending'` yields: one of the four statuses, or, for a name the
      lookup object inherits, that inherited member (a function or an object, both truthy). */
  datatype StatusLookup = OwnStatus(status: BookingStatus) | InheritedMember(name: string)

  /** `mapApiStatus` as written: a lookup in a plain object literal, the missing status
      defaulting to "". Inherited names are found on the prototype and returned as they are. */
  function LookupApiStatus(apiStatus: Option<string>): (r: StatusLookup)
    ensures r.InheritedMember? <==> apiStatus.GetOr("") in PrototypeMembers
  {
    var s := apiStatus.GetOr("");
    if s == "COMPLETED" then OwnStatus(Completed)
    else if s == "CONFIRMED" then OwnStatus(Confirmed)
    else if s == "PENDING" then OwnStatus(Pending)
    else if s == "CANCELLED" then OwnStatus(Cancelled)
    else if s in PrototypeMembers then InheritedMember(s)
    else OwnStatus(Pending)
  }

  /** `mapApiStatus` as intended: the four upper-case API statuses map to their lower-case
      word, and every other value (missing, "", "PAID", "REFUNDED", lower-case words, inherited
      names) maps to pending. */
  function MapApiStatus(apiStatus: Option<string>): (r: BookingStatus)
    ensures r == Completed <==> apiStatus == Some("COMPLETED")
    ensures r == Confirmed <==> apiStatus == Some("CONFIRMED")
    ensures r == Cancelled <==> apiStatus == Some("CANCELLED")
    ensures r == Pending <==> apiStatus !in {Some("COMPLETED"), Some("CONFIRMED"), Some("CANCELLED")}
  {
    match apiStatus
    case Some("COMPLETED") => Completed
    case Some("CONFIRMED") => Confirmed
    case Some("CANCELLED") => Cancelled
    case _ => Pending
  }

  /** Off the prototype's names the lookup as written and the intended map agree. */
  lemma LookupAgreesOffPrototype(apiStatus: Option<string>)
    requires apiStatus.GetOr("") !in PrototypeMembers
    ensures LookupApiStatus(apiStatus) == OwnStatus(MapApiStatus(apiStatus))
  {
  }

  /** A status of "toString" reaches the row as `Object.prototype.toString`, not as a status. */
  lemma InheritedNameIsNotAStatus()
    ensures LookupApiStatus(Some("toString")) == InheritedMember("toString")
    ensures MapApiStatus(Some("toString")) == Pending
  {
  }

  /** The filter sends a status word upper-cased, and that text maps back to the same
      status. */
  lemma FilterValueMapsBack(s: BookingStatus)
    ensures MapApiStatus(Some(ToUpperCase(StatusWord(s)))) == s
  {
    UpperStatusWord(s);
  }

  /** The upper-cased status word is the API's spelling of that status. */
  lemma UpperStatusWord(s: BookingStatus)
    ensures ToUpperCase(StatusWord(s)) ==
      match s
      case Completed => "COMPLETED"
      case Confirmed => "CONFIRMED"
      case Pending => "PENDING"
      case Cancelled => "CANCELLED"
  {
    match s
    case Completed => UpperWord("completed", "COMPLETED");
    case Confirmed => UpperWord("confirmed", "CONFIRMED");
    case Pending => UpperWord("pending", "PENDING");
    case Cancelled => UpperWord("cancelled", "CANCELLED");
  }

  /** Upper-casing a word letter by letter. */
  lemma UpperWord(w: string, u: string)
    requires |w| == |u| && forall i :: 0 <= i < |w| ==> UpperChar(w[i]) == u[i]
    ensures ToUpperCase(w) == u
  {
  }

  // ---------------------------------------------------------------- the list query

  const PerPage := 10

  /** The parameter list the page sends: page and limit first, then the trimmed search text
      when it is not blank, then the upper-cased status filter unless it is "all". */
  function BookingParams(currentPage: int, searchText: string, statusFilter: string): seq<QueryParam> {
    [QueryParam("page", Text(IntToString(currentPage))), QueryParam("limit", Text(IntToString(PerPage)))]
    + Optional(Trim(searchText) != "", QueryParam("searchTerm", Text(Trim(searchText))))
    + Optional(statusFilter != "all", QueryParam("bookingStatus", Text(ToUpperCase(statusFilter))))
  }

  /** What the list query carries, name by name: the page as decimal text, the limit "10", the
      trimmed search text exactly when it is not blank, the upper-cased filter exactly when it
      is not "all", and nothing else. */
  lemma BookingParamsValues(currentPage: int, searchText: string, statusFilter: string, name: string)
    ensures var e := Entries(BookingParams(currentPage, searchText, statusFilter));
      && Values(e, "page") == [IntToString(currentPage)]
      && Values(e, "limit") == ["10"]
      && Values(e, "searchTerm") == (if Trim(searchText) != "" then [Trim(searchText)] else [])
      && Values(e, "bookingStatus") == (if statusFilter != "all" then [ToUpperCase(statusFilter)] else [])
      && (name !in {"page", "limit", "searchTerm", "bookingStatus"} ==> Values(e, name) == [])
  {
    var p1 := QueryParam("page", Text(IntToString(currentPage)));
    var p2 := QueryParam("limit", Text(IntToString(PerPage)));
    var p3 := QueryParam("searchTerm", Text(Trim(searchText)));
    var p4 := QueryParam("bookingStatus", Text(ToUpperCase(statusFilter)));
    ValuesOfNamedListQuery(p1, p2, Trim(searchText) != "", p3, statusFilter != "all", p4, name);
    PerPageText();
  }

  /** The page size is written "10". */
  lemma PerPageText()
    ensures IntToString(PerPage) == "10"
  {
    assert NatToDecimal(10) == NatToDecimal(1) + [DigitChar(0)];
  }

  /** The query built by pushing onto the list, as the page does during rendering. */
  method BuildQueryParams(currentPage: int, searchText: string, statusFilter: string)
    returns (params: seq<QueryParam>)
    ensures params == BookingParams(currentPage, searchText, statusFilter)
    ensures params[0] == QueryParam("page", Text(IntToString(currentPage)))
    ensures params[1] == QueryParam("limit", Text("10"))
  {
    var search := QueryParam("searchTerm", Text(Trim(searchText)));
    var status := QueryParam("bookingStatus", Text(ToUpperCase(statusFilter)));
    PerPageText();
    params := [QueryParam("page", Text(IntToString(currentPage))), QueryParam("limit", Text(IntToString(PerPage)))];
    if Truthy(Trim(searchText)) {
      params := params + [search];
    }
    assert params[..2] + Optional(Trim(searchText) != "", search) == params;
    if statusFilter != "all" {
      params := params + [status];
    }
  }

  // ---------------------------------------------------------------- the rows

  datatype TimeSlot = TimeSlot(date: string, startTime: string, durationInHours: real)

  /** A full-day or custom booking period. */
  datatype DayRange = DayRange(startDate: string, endDate: string, fullDays: seq<string>)

  /** A booking as the API returns it; `None` stands for an absent optional field. */
  datatype Booking = Booking(
    id: string,
    bookingType: string,
    bookingStatus: Option<string>,
    totalPayable: Option<real>,
    hourlySlots: Option<seq<TimeSlot>>,
    fullDayBooking: Option<DayRange>,
    customBooking: Option<seq<DayRange>>,
    overnightBooking: Option<TimeSlot>,
    parentName: Option<string>,
    nannyName: Option<string>)

  /** A row of the bookings table. */
  datatype BookingRow = BookingRow(
    id: string,
    parentsName: string,
    nannyName: string,
    date: string,
    time: string,
    duration: string,
    status: BookingStatus,
    amount: real,
    location: string,
    services: seq<string>)

  predicate HasHourly(b: Booking) { b.hourlySlots.Some? && |b.hourlySlots.value| > 0 }
  predicate HasFullDay(b: Booking) { b.fullDayBooking.Some? && |b.fullDayBooking.value.fullDays| > 0 }
  predicate HasCustom(b: Booking) { b.customBooking.Some? && |b.customBooking.value| > 0 }
  predicate HasOvernight(b: Booking) { b.overnightBooking.Some? }

  /** `name || "N/A"`. */
  function NameOrNA(name: Option<string>): (r: string)
    ensures r != ""
    ensures name.Some? && name.value != "" ==> r == name.value
    ensures name.None? || name.value == "" ==> r == "N/A"
  {
    if name.Some? && Truthy(name.value) then name.value else "N/A"
  }

  function HourlyDuration(s: TimeSlot, numberText: NumberToString): string {
    s.startTime + " (" + numberText(s.durationInHours) + " hrs)"
  }

  function OvernightDuration(s: TimeSlot, numberText: NumberToString): string {
    numberText(s.durationInHours) + " hrs (Overnight)"
  }

  /** The date, time and duration a row shows, chosen by the booking's kind. An overnight
      booking wins over a custom one, a custom one over a full-day one, a full-day one over an
      hourly one; with none of them all three are "N/A". */
  function Schedule(b: Booking, numberText: NumberToString): (string, string, string) {
    if HasOvernight(b) then
      var s := b.overnightBooking.value;
      (s.date, s.startTime, OvernightDuration(s, numberText))
    else if HasCustom(b) then
      (b.customBooking.value[0].startDate, "Custom Slot", "Custom Day(s)")
    else if HasFullDay(b) then
      var d := b.fullDayBooking.value;
      (if Truthy(d.fullDays[0]) then d.fullDays[0] else d.startDate, "Full Day", "Full Day")
    else if HasHourly(b) then
      var s := b.hourlySlots.value[0];
      (s.date, s.startTime, HourlyDuration(s, numberText))
    else ("N/A", "N/A", "N/A")
  }

  /** The row the page makes of one booking. */
  function RowOf(b: Booking, numberText: NumberToString): BookingRow {
    var (date, time, duration) := Schedule(b, numberText);
    BookingRow(b.id, NameOrNA(b.parentName), NameOrNA(b.nannyName), date, time, duration,
      MapApiStatus(b.bookingStatus), b.totalPayable.GetOr(0.0), "N/A", [b.bookingType])
  }

  /** The transform of one booking: the date, time and duration start as "N/A" and each kind
      present overwrites them in turn (hourly, full day, custom, overnight), so the last kind
      present is the one shown. */
  method TransformBooking(b: Booking, numberText: NumberToString) returns (row: BookingRow)
    ensures row == RowOf(b, numberText)
    ensures row.id == b.id && row.services == [b.bookingType] && row.location == "N/A"
    ensures !HasHourly(b) && !HasFullDay(b) && !HasCustom(b) && !HasOvernight(b) ==>
      row.date == "N/A" && row.time == "N/A" && row.duration == "N/A"
    ensures HasOvernight(b) ==> row.date == b.overnightBooking.value.date
  {
    var date := "N/A";
    var time := "N/A";
    var duration := "N/A";
    if HasHourly(b) {
      var s := b.hourlySlots.value[0];
      date := s.date;
      time := s.startTime;
      duration := HourlyDuration(s, numberText);
    }
    if HasFullDay(b) {
      var d := b.fullDayBooking.value;
      date := if Truthy(d.fullDays[0]) then d.fullDays[0] else d.startDate;
      time := "Full Day";
      duration := "Full Day";
    }
    if HasCustom(b) {
      date := b.customBooking.value[0].startDate;
      time := "Custom Slot";
      duration := "Custom Day(s)";
    }
    if HasOvernight(b) {
      var s := b.overnightBooking.value;
      date := s.date;
      time := s.startTime;
      duration := OvernightDuration(s, numberText);
    }
    row := BookingRow(b.id, NameOrNA(b.parentName), NameOrNA(b.nannyName), date, time, duration,
      MapApiStatus(b.bookingStatus), b.totalPayable.GetOr(0.0), "N/A", [b.bookingType]);
  }

  /** `rawBookings.map(...)`: one row per booking, in order. */
  method TransformBookings(bookings: seq<Booking>, numberText: NumberToString) returns (rows: seq<BookingRow>)
    ensures |rows| == |bookings|
    ensures forall i :: 0 <= i < |bookings| ==> rows[i] == RowOf(bookings[i], numberText)
  {
    rows := [];
    var i := 0;
    while i < |bookings|
      invariant 0 <= i <= |bookings|
      invariant |rows| == i
      invariant forall k :: 0 <= k < i ==> rows[k] == RowOf(bookings[k], numberText)
    {
      var row := TransformBooking(bookings[i], numberText);
      rows := rows + [row];
      i := i + 1;
    }
  }

  /** A full-day booking shows its first listed day, or its start date when that day is the
      empty string. */
  lemma FullDayDate(b: Booking, numberText: NumberToString)
    requires HasFullDay(b) && !HasCustom(b) && !HasOvernight(b)
    ensures RowOf(b, numberText).date ==
      (if b.fullDayBooking.value.fullDays[0] != "" then b.fullDayBooking.value.fullDays[0] else b.fullDayBooking.value.startDate)
    ensures RowOf(b, numberText).time == "Full Day" == RowOf(b, numberText).duration
  {
  }

  // ---------------------------------------------------------------- response defaults

  /** `meta?.totalPage || 1`: a missing or zero page count counts as one page. */
  function TotalPages(totalPage: Option<int>): (r: int)
    ensures r != 0
    ensures totalPage.Some? && totalPage.value != 0 ==> r == totalPage.value
    ensures totalPage.Some? && totalPage.value >= 0 ==> r >= 1
    ensures totalPage.None? || totalPage.value == 0 ==> r == 1
  {
    if totalPage.Some? && totalPage.value != 0 then totalPage.value else 1
  }

  /** `meta?.total || 0`. */
  function TotalItems(total: Option<int>): (r: int)
    ensures total.Some? ==> r == total.value
    ensures total.None? ==> r == 0
  {
    if total.Some? then total.value else 0
  }

  // ---------------------------------------------------------------- pagination

  /** The i-th of the page-number buttons. */
  function PageButton(currentPage: int, totalPages: int, i: int): int {
    if totalPages <= 5 then i + 1
    else if currentPage <= 3 then i + 1
    else if currentPage >= totalPages - 2 then totalPages - 4 + i
    else currentPage - 2 + i
  }

  function Min(a: int, b: int): int { if a <= b then a else b }
  function Max(a: int, b: int): int { if a >= b then a else b }

  /** The page-number buttons: min(totalPages, 5) consecutive pages, all between 1 and
      totalPages, and including the current page whenever that page exists. */
  function PageWindow(currentPage: int, totalPages: nat): (w: seq<int>)
    ensures |w| == Min(totalPages, 5)
    ensures forall i :: 0 <= i < |w| ==> w[i] == w[0] + i
    ensures forall i :: 0 <= i < |w| ==> 1 <= w[i] <= totalPages
    ensures 1 <= currentPage <= totalPages ==> currentPage in w
  {
    CurrentPageHasButton(currentPage, totalPages);
    var w := seq(Min(totalPages, 5), i => PageButton(currentPage, totalPages, i));
    var k := currentPage - PageButton(currentPage, totalPages, 0);
    assert 1 <= currentPage <= totalPages ==> w[k] == currentPage;
    w
  }

  /** The button of the current page sits at its offset from the first button. */
  lemma CurrentPageHasButton(currentPage: int, totalPages: nat)
    ensures 1 <= currentPage <= totalPages ==>
      0 <= currentPage - PageButton(currentPage, totalPages, 0) < Min(totalPages, 5) &&
      PageButton(currentPage, totalPages, currentPage - PageButton(currentPage, totalPages, 0)) == currentPage
  {
  }

  /** "Showing X to Y": the first item number of the page. */
  function ShowingFrom(currentPage: int): int {
    (currentPage - 1) * PerPage + 1
  }

  /** "Showing X to Y": the last item number of the page. */
  function ShowingTo(currentPage: int, totalItems: int): int {
    Min(currentPage * PerPage, totalItems)
  }

  /** On a page that holds items, "Showing X to Y" names between one and ten items, all of
      them existing ones; and consecutive full pages continue one another. */
  lemma ShowingRange(currentPage: int, totalItems: int)
    requires currentPage >= 1 && (currentPage - 1) * PerPage < totalItems
    ensures 1 <= ShowingFrom(currentPage) <= ShowingTo(currentPage, totalItems) <= totalItems
    ensures ShowingTo(currentPage, totalItems) - ShowingFrom(currentPage) < PerPage
    ensures currentPage * PerPage < totalItems ==>
      ShowingFrom(currentPage + 1) == ShowingTo(currentPage, totalItems) + 1
  {
  }

  /** Previous: `Math.max(p - 1, 1)`. */
  function PreviousPage(p: int): (r: int)
    ensures r >= 1
    ensures p > 1 ==> r == p - 1
    ensures p <= 1 ==> r == 1
  {
    Max(p - 1, 1)
  }

  /** Next: `Math.min(p + 1, totalPages)`. */
  function NextPage(p: int, totalPages: int): (r: int)
    ensures r <= totalPages
    ensures p < totalPages ==> r == p + 1
    ensures p >= totalPages ==> r == totalPages
  {
    Min(p + 1, totalPages)
  }

  predicate PreviousDisabled(currentPage: int, isFetching: bool) {
    currentPage == 1 || isFetching
  }

  predicate NextDisabled(currentPage: int, totalPages: int, isFetching: bool) {
    currentPage == totalPages || isFetching
  }

  /** From any page of the list, Previous and Next stay within it, and each moves exactly one
      page unless its button is disabled. */
  lemma NavigationStaysInRange(p: int, totalPages: int)
    requires 1 <= p <= totalPages
    ensures 1 <= PreviousPage(p) <= totalPages && 1 <= NextPage(p, totalPages) <= totalPages
    ensures !PreviousDisabled(p, false) ==> PreviousPage(p) == p - 1
    ensures !NextDisabled(p, totalPages, false) ==> NextPage(p, totalPages) == p + 1
  {
  }

  // ---------------------------------------------------------------- the page state

  /** The page's state: the search text, the status filter and the current page. */
  class BookingPage {
    var searchText: string
    var statusFilter: string
    var currentPage: int

    predicate Valid()
      reads this
    {
      currentPage >= 1
    }

    constructor ()
      ensures searchText == "" && statusFilter == "all" && currentPage == 1
      ensures Valid()
    {
      searchText := "";
      statusFilter := "all";
      currentPage := 1;
    }

    /** A new search text always returns to the first page. */
    method HandleSearch(value: string)
      modifies this
      ensures searchText == value && currentPage == 1 && statusFilter == old(statusFilter)
      ensures Valid()
    {
      searchText := value;
      currentPage := 1;
    }

    /** A new status filter always returns to the first page. */
    method HandleStatusFilter(value: string)
      modifies this
      ensures statusFilter == value && currentPage == 1 && searchText == old(searchText)
      ensures Valid()
    {
      statusFilter := value;
      currentPage := 1;
    }

    method GoToPrevious()
      modifies this
      ensures currentPage == PreviousPage(old(currentPage))
      ensures searchText == old(searchText) && statusFilter == old(statusFilter)
      ensures Valid()
    {
      currentPage := PreviousPage(currentPage);
    }

    method GoToNext(totalPages: int)
      requires Valid()
      modifies this
      ensures currentPage == NextPage(old(currentPage), totalPages)
      ensures searchText == old(searchText) && statusFilter == old(statusFilter)
      ensures totalPages >= 1 ==> Valid()
    {
      currentPage := NextPage(currentPage, totalPages);
    }

    /** A page-number button sets the page it shows. */
    method GoToPage(pageNum: int)
      modifies this
      ensures currentPage == pageNum
      ensures searchText == old(searchText) && statusFilter == old(statusFilter)
    {
      currentPage := pageNum;
    }
  }
}
