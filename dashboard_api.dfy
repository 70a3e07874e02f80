/** The analytics API slice behind the dashboard overview: four GET endpoints whose URLs carry
    the requested year, all providing the tag type "Dashboard". */
module DashboardApi {
  import opened Wrappers
  import opened JsText
  import opened UrlEncoding
  import opened Http

  datatype Endpoint = GetDashboardCardData | GetDashboardStats | GetUserAnalytics | TotalRevenue

  /** Every endpoint is a query providing "Dashboard". */
  function Effect(e: Endpoint): (r: CacheEffect)
    ensures r.Provides? && r.provided == {DashboardTag}
  {
    Provides({DashboardTag})
  }

  /** `${data?.year}`: the year as decimal text, or "undefined" when there is none. */
  function YearText(year: Option<int>): (r: string)
    ensures year.Some? ==> ParseInteger(r) == Some(year.value)
    ensures year.None? ==> r == "undefined"
  {
    match year
    case Some(y) => IntToStringRoundTrip(y); IntToString(y)
    case None => "undefined"
  }

  const CardDataPath := "/analytics/dashboard/stats"
  const UserStatsPath := "/analytics/monthly/user/stats"
  const RevenuePath := "/analytics/monthly/revenue/stats"

  /** `getDashboardCardData(data)` as written: the query is "?=year=" followed by the year. */
  function CardDataRequest(year: Option<int>): (r: Request)
    ensures r.url == CardDataPath + "?=year=" + YearText(year)
    ensures r.verb == GET && r.params == [] && r.body == NoBody
  {
    Get(CardDataPath + "?=year=" + YearText(year))
  }

  /** `getDashboardCardData(data)` with the query "?year=", which the other year-based
      endpoints of the slice use. */
  function CardDataRequestCorrected(year: Option<int>): (r: Request)
    ensures r.url == CardDataPath + "?year=" + YearText(year)
    ensures r.verb == GET && r.params == [] && r.body == NoBody
  {
    Get(CardDataPath + "?year=" + YearText(year))
  }

  function UserStatsRequest(year: Option<int>): (r: Request)
    ensures r.url == UserStatsPath + "?year=" + YearText(year) && r.verb == GET
  {
    Get(UserStatsPath + "?year=" + YearText(year))
  }

  /** `getUserAnalytics()`: the same statistics path with no query at all. */
  function UserAnalyticsRequest(): (r: Request)
    ensures r.verb == GET && r.params == [] && r.body == NoBody
    ensures forall year :: UserStatsRequest(year).url == r.url + "?year=" + YearText(year)
  {
    Get(UserStatsPath)
  }

  function RevenueRequest(year: Option<int>): (r: Request)
    ensures r.url == RevenuePath + "?year=" + YearText(year) && r.verb == GET
  {
    Get(RevenuePath + "?year=" + YearText(year))
  }

  lemma YearTextHasNoSeparators(y: int)
    ensures forall i :: 0 <= i < |IntToString(y)| ==>
      IntToString(y)[i] != '&' && IntToString(y)[i] != '+' && IntToString(y)[i] != '%'
  {
    var t := IntToString(y);
    assert forall i :: 0 <= i < |t| ==> IsDigit(t[i]) || t[i] == '-';
  }

  /** A URL of the form `path?year=<y>` carries exactly one parameter, `year`, whose text reads
      back as `y`. */
  lemma YearQueryReadsBack(path: string, y: int)
    requires '?' !in path
    ensures Undecoded(QueryOf(path + "?year=" + IntToString(y)))
    ensures ParseQuery(QueryOf(path + "?year=" + IntToString(y))) == [("year", IntToString(y))]
    ensures ParseInteger(Values(ParseQuery(QueryOf(path + "?year=" + IntToString(y))), "year")[0]) == Some(y)
  {
    var t := IntToString(y);
    YearTextHasNoSeparators(y);
    assert path + "?year=" + t == path + "?" + "year" + "=" + t;
    SinglePairQuery(path, "year", t);
    IntToStringRoundTrip(y);
  }

  /** A URL of the form `path?=year=<t>` carries one pair with the empty name and the value
      "year=<t>", so no parameter `year`. */
  lemma NamelessYearQuery(path: string, t: string)
    requires '?' !in path
    requires forall i :: 0 <= i < |t| ==> t[i] != '&' && t[i] != '+' && t[i] != '%'
    ensures Undecoded(QueryOf(path + "?=year=" + t))
    ensures ParseQuery(QueryOf(path + "?=year=" + t)) == [("", "year=" + t)]
    ensures Values(ParseQuery(QueryOf(path + "?=year=" + t)), "year") == []
  {
    var v := "year=" + t;
    assert forall i :: 0 <= i < |v| ==> v[i] != '&' && v[i] != '+' && v[i] != '%' by {
      forall i | 0 <= i < |v| ensures v[i] != '&' && v[i] != '+' && v[i] != '%' {
        if i >= 5 { assert v[i] == t[i - 5]; }
      }
    }
    assert path + "?=year=" + t == path + "?" + "" + "=" + v;
    SinglePairQuery(path, "", v);
  }

  /** The card-data query as written names no parameter `year`: its only pair has the empty
      name and carries "year=<y>" as its value, so the requested year never reaches the
      server as `year`. */
  lemma CardDataYearIsLost(y: int)
    ensures Undecoded(QueryOf(CardDataRequest(Some(y)).url))
    ensures ParseQuery(QueryOf(CardDataRequest(Some(y)).url)) == [("", "year=" + IntToString(y))]
    ensures Values(ParseQuery(QueryOf(CardDataRequest(Some(y)).url)), "year") == []
  {
    YearTextHasNoSeparators(y);
    NamelessYearQuery(CardDataPath, IntToString(y));
  }

  /** With "?year=", the card-data request carries the year as the server's `year`
      parameter. */
  lemma CardDataCorrectedCarriesYear(y: int)
    ensures Undecoded(QueryOf(CardDataRequestCorrected(Some(y)).url))
    ensures ParseQuery(QueryOf(CardDataRequestCorrected(Some(y)).url)) == [("year", IntToString(y))]
  {
    YearQueryReadsBack(CardDataPath, y);
  }

  /** The user-statistics and revenue requests carry the year the same way. */
  lemma YearEndpointsCarryYear(y: int)
    ensures Undecoded(QueryOf(UserStatsRequest(Some(y)).url))
    ensures ParseQuery(QueryOf(UserStatsRequest(Some(y)).url)) == [("year", IntToString(y))]
    ensures Undecoded(QueryOf(RevenueRequest(Some(y)).url))
    ensures ParseQuery(QueryOf(RevenueRequest(Some(y)).url)) == [("year", IntToString(y))]
  {
    YearQueryReadsBack(UserStatsPath, y);
    YearQueryReadsBack(RevenuePath, y);
  }
}
