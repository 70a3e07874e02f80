# tnumbi dashboard: a verified model of its core

This project models the core of the tnumbi admin dashboard, a Next.js front end for a
child-care booking service. Administrators use it to list users, bookings and background checks.
They also manage banners, set the platform and background-check fees, and create other
administrators.

The model covers the parts of the dashboard that decide what it does:

- **Session.** The `auth` slice of the Redux store, and how it persists the token and the user in
  `localStorage`.
- **Signing requests.** The base query, which signs every request with the bearer token.
- **API slices.** The request each endpoint of the banner, background-check and analytics slices
  builds, and the cache tags those endpoints provide and invalidate.
- **URL hooks.** The two hooks that rewrite the query string of the current URL.
- **Page logic.** The pages' own logic:
  - the list queries they compose;
  - the handlers that reset the page number;
  - pagination;
  - form validation and the payloads that forms send;
  - the banner dialog and the edit-banner modal, including image compression;
  - the status switches;
  - the sidebar's active-entry rule;
  - the image URL resolver.

Browser and library behaviour is modelled explicitly wherever a rule depends on it:

- **`URLSearchParams`.** `set`, `delete` and `toString`, with form-urlencoding.
- **`Object.fromEntries`.** The last value for a name wins.
- **`JSON.stringify` and `JSON.parse`.** Flat objects whose properties all hold strings.
- **Strings.** `trim`, `toUpperCase`, `String(n)`, and `length` in UTF-16 code units.
- **Template literals.** An absent value becomes `"undefined"`.
- **Truthiness.**
- **Prototype lookup.** Property lookup in a plain object also finds inherited members.

Calls that are not part of this model are given as parameters:

- `parseFloat`;
- `Number.prototype.toString`;
- `compressImage`;
- the `FileReader` data URL;
- the answer of each server call.

Each page or component whose state changes in place is a class whose fields are that state. Its
handlers are methods that state the whole new state, field by field. Every class that sends requests records
them in a `sent` log, so each contract also says what was sent.

Where the dashboard's general rule for list queries differs from what a page does, the model
follows the page. The general rule trims the search text, upper-cases the filters, and leaves a
filter out only when it is "all". Two pages differ from it:

- The background-check page (`app/dashboard/background-check/page.tsx:184-190`):
  - sends its search text untrimmed;
  - sends its status filter as chosen, not upper-cased;
  - sends its limit as a number.
- The user-management page (`app/dashboard/user-management/page.tsx:223`) also leaves the role
  out when the filter is the empty string.

## Model

| member | source | states |
|---|---|---|
| AuthStore.UserRoundTrip | lib/store.ts:62 | The user text written to storage is read back by `JSON.parse` as the same user, and it is never empty |
| AuthStore.GetItem | lib/store.ts:48 | `getItem` yields a value exactly when the key is stored, and then the stored value |
| AuthStore.InitialState | lib/store.ts:46-50 | The store starts with no user, with the stored token when there is a window, and authenticated exactly when a non-empty token is stored; it is never authenticated without a token |
| AuthStore.AfterSetCredentials | lib/store.ts:56-64 | After sign-in the session is authenticated with exactly that user and token |
| AuthStore.StoredCredentials | lib/store.ts:56-64 | After sign-in, storage holds the token and a user text that parses back to the user; every other key is unchanged |
| AuthStore.AfterLogout | lib/store.ts:65-73 | After logout there is no user, no token and no authentication |
| AuthStore.StoredAfterLogout | lib/store.ts:65-73 | Logout removes both keys from storage and keeps every other key |
| AuthStore.AfterLoad | lib/store.ts:74-84 | Loading from storage keeps the invariant. It changes the state only when there is a window and both keys are stored. When both stored texts are truthy and the user text reads back as a user, the session becomes exactly that user with the stored token, authenticated |
| AuthStore.LogoutIdempotent | lib/store.ts:65-73 | Logging out twice leaves storage as logging out once does |
| AuthStore.LoadAfterLogoutChangesNothing | lib/store.ts:65-84 | After a logout, loading from storage leaves any state as it was |
| AuthStore.SessionSurvivesReload | lib/store.ts:46-84 | After a sign-in with a non-empty token, a reloaded store is authenticated, and loading from storage restores the same user and token |
| AuthStore.LocalStorage.SetItem | lib/store.ts:61-62 | `setItem` maps the key to the value and changes no other key |
| AuthStore.LocalStorage.RemoveItem | lib/store.ts:70-71 | `removeItem` removes the key and changes no other key |
| AuthStore.AuthSlice.constructor | lib/store.ts:46-50 | The slice's state is the initial state computed from the storage it is given |
| AuthStore.AuthSlice.SetCredentials | lib/store.ts:56-64 | The reducer sets the signed-in state and, when there is a window, stores the credentials |
| AuthStore.AuthSlice.Logout | lib/store.ts:65-73 | The reducer clears the session and, when there is a window, both storage keys |
| AuthStore.AuthSlice.LoadUserFromStorage | lib/store.ts:74-84 | The reducer moves the state to what loading from the current storage yields |
| BaseApi.Headers.constructor | lib/baseApi.ts:11 | A headers object holds exactly the headers it was given |
| BaseApi.Headers.Set | lib/baseApi.ts:14 | `set` gives the header the value and changes no other header |
| BaseApi.WithAuthorization | lib/baseApi.ts:12-17 | With a non-empty token the authorization header reads "Bearer " and the token; with no token or an empty one the headers are unchanged; no other header is ever touched |
| BaseApi.PrepareHeaders | lib/baseApi.ts:11-18 | `prepareHeaders` updates the headers object in place, as the token rule says, and returns that same object |
| BaseApi.LoggedOutRequestsAreUnsigned | lib/baseApi.ts:11-18 | After a logout, requests are sent without an authorization header |
| BannerApi.Effect | lib/api/bannerApi.ts:21-69 | The list query provides the "Banner" tag, and each of the four mutations invalidates exactly that tag |
| BannerApi.EveryMutationRefetchesBanners | lib/api/bannerApi.ts:21-69 | Every banner mutation makes the banner list refetch |
| BannerApi.GetBannersRequest | lib/api/bannerApi.ts:23-26 | The list is a bare GET of "/banners" |
| BannerApi.CreateBannerRequest | lib/api/bannerApi.ts:28-40 | A creation is a POST to the list's URL whose body is exactly the form it was given |
| BannerApi.UpdateBannerRequest | lib/api/bannerApi.ts:42-51 | An update is a PATCH of "/banner/" and the id, with the form as its body; its URL lies outside "/banners" |
| BannerApi.UpdatePathIsSingular | lib/api/bannerApi.ts:42-51 | For every id, the update URL starts neither with "/banners" nor with "/banners/" |
| BannerApi.StatusBody | lib/api/bannerApi.ts:53-61 | The status body always ends with the boolean status, and holds the id first exactly when one is given |
| BannerApi.UpdateStatusRequest | lib/api/bannerApi.ts:53-61 | A status update is a PATCH of "/banners/status/" and the interpolated id ("undefined" when there is none), with the status body |
| BannerApi.DeleteBannerRequest | lib/api/bannerApi.ts:63-69 | A deletion is a DELETE of "/banners/" and the id, with no body |
| VerifyApi.Effect | lib/api/verifyApi.ts:32-68 | Both queries provide the "BackgroundCheck" tag, and every mutation invalidates exactly that tag |
| VerifyApi.MutationsRefetchEveryQuery | lib/api/verifyApi.ts:32-68 | Every mutation of the slice makes every query of the slice refetch |
| VerifyApi.GetAllChecksRequest | lib/api/verifyApi.ts:36-44 | The list is a GET of "/checkr" whose parameters are the object built from the list; a name given at most one value arrives with exactly that value |
| VerifyApi.GetFeeRequest | lib/api/verifyApi.ts:46-49 | The fee is a bare GET of "/background-check-fee" |
| VerifyApi.UpdateFeeRequest | lib/api/verifyApi.ts:53-60 | A fee update is a POST to the URL the fee is read from, with exactly the data given as its JSON body |
| VerifyApi.UpdateStatusRequest | lib/api/verifyApi.ts:62-69 | A status update is a PATCH of "/checkr/" and the id, with the data as its body |
| VerifyApi.UpdateStatusTargetsOneCheck | lib/api/verifyApi.ts:62-69 | Two status updates go to the same URL exactly when their ids are equal, and never to the list's URL |
| DashboardApi.Effect | lib/api/dashboardApi.ts:8-29 | Every analytics endpoint is a query that provides the "Dashboard" tag |
| DashboardApi.YearText | lib/api/dashboardApi.ts:13 | The year's text reads back as that year; a missing year becomes "undefined" |
| DashboardApi.CardDataRequest | lib/api/dashboardApi.ts:10-18 | The card-data request as written: a GET whose URL ends in "?=year=" and the year |
| DashboardApi.CardDataYearIsLost | lib/api/dashboardApi.ts:13 | The card-data query as written has one pair, with an empty name, so no parameter named `year` reaches the server |
| DashboardApi.CardDataRequestCorrected | lib/api/dashboardApi.ts:13 | The card-data request with the query "?year=" and the year |
| DashboardApi.CardDataCorrectedCarriesYear | lib/api/dashboardApi.ts:13-20 | The corrected card-data query has exactly one pair, `year`, carrying the year's text |
| DashboardApi.UserStatsRequest | lib/api/dashboardApi.ts:19-22 | The user statistics are a GET with the query "?year=" and the year |
| DashboardApi.UserAnalyticsRequest | lib/api/dashboardApi.ts:23-26 | The user analytics are a GET of the user-statistics path with no query |
| DashboardApi.RevenueRequest | lib/api/dashboardApi.ts:27-30 | The revenue statistics are a GET with the query "?year=" and the year |
| DashboardApi.YearEndpointsCarryYear | lib/api/dashboardApi.ts:19-30 | The queries of the user-statistics and revenue requests each have exactly one pair, `year`, carrying the year's text |
| ImageUrl.GetImageUrl | components/providers/imageUrl.ts:3-14 | A missing or empty path gives the placeholder; an http(s) URL is kept as it is; any other path is placed under the image host after a '/'; the result is never empty |
| ImageUrl.ResolveIsIdempotent | components/providers/imageUrl.ts:8-13 | Resolving an already resolved non-empty path changes nothing |
| ImageUrl.LeadingSlashIsDoubled | components/providers/imageUrl.ts:13 | A relative path that starts with '/' gets "//" right after the host |
| JsText.TrimIdempotent | app/dashboard/booking-management/page.tsx:108-109 | Trimming the already trimmed search text changes nothing |
| JsText.ToUpperCaseIdempotent | app/dashboard/user-management/page.tsx:224 | An upper-cased filter holds no lower-case ASCII letter, and upper-casing it again changes nothing |
| JsText.IntToStringRoundTrip | app/dashboard/user-management/page.tsx:215-216 | The decimal text `String(n)` of a page number or limit reads back as that number |
| JsText.Utf16Length | app/dashboard/create-admin/page.tsx:168 | `length` counts between one and two code units per character; its exact value follows from the two lemmas below |
| JsText.Utf16LengthOfChar | app/dashboard/create-admin/page.tsx:168 | A character at or above U+10000 counts two code units (a surrogate pair), and any other character counts one |
| JsText.Utf16LengthConcat | app/dashboard/create-admin/page.tsx:168 | The code-unit count of joined texts is the sum of their counts, so the count is exact character by character |
| JsonText.StringifyParseRoundTrip | app/dashboard/banner-management/page.tsx:237 | `JSON.parse` of what `JSON.stringify` writes for an object of string properties yields the same properties, in order |
| UrlEncoding.SerializeParseRoundTrip | hooks/useUpdateSearchParams.ts:17 | Pairs written without escapes are read back exactly from the query string the hook pushes |
| UrlEncoding.SerializeEmpty | hooks/updateMultiSearchParams.ts:20 | A query string is empty exactly when no pairs remain |
| UrlEncoding.SetPairs | hooks/updateMultiSearchParams.ts:14 | After `set`, the name has exactly the one new value, and every other name keeps its values |
| UrlEncoding.DeleteAll | hooks/updateMultiSearchParams.ts:16 | After `delete`, the name has no value, and every other name keeps its values |
| UrlEncoding.DeleteAllConcat | hooks/updateMultiSearchParams.ts:16 | `delete` filters pair by pair: deleting from two joined lists joins the two filtered lists, so the kept pairs stay in order |
| UrlEncoding.DeleteAllAbsent | hooks/updateMultiSearchParams.ts:16 | Deleting a name that has no pair leaves the list unchanged |
| UrlEncoding.ReplaceFirstAt | hooks/updateMultiSearchParams.ts:14 | When the name first occurs at index k, the pairs before k are unchanged, pair k takes the new value, and later pairs with the name are removed |
| UrlEncoding.SetPairsAt | hooks/updateMultiSearchParams.ts:14 | `set` on a name already present keeps the position of its first pair: the pairs before it are unchanged, and after it only the pairs with the name are removed |
| UrlEncoding.SearchParams.Set | hooks/useUpdateSearchParams.ts:12 | `set` on the object replaces its pairs as the `set` rule says |
| UrlEncoding.SearchParams.Delete | hooks/useUpdateSearchParams.ts:14 | `delete` on the object replaces its pairs as the `delete` rule says |
| SingleSearchParams.SingleUpdate | hooks/useUpdateSearchParams.ts:11-15 | A non-empty value becomes the key's only value; null and "" remove the key; other keys are untouched |
| SingleSearchParams.UpdateSearchParams | hooks/useUpdateSearchParams.ts:8-19 | The hook's parameters are the update applied to the current query, and the pushed path is the pathname, '?' and their serialization |
| SingleSearchParams.EmptyStringDiffers | hooks/useUpdateSearchParams.ts:11-15 | The two hooks disagree on "": this hook removes the key, and the multi-key hook keeps it with an empty value. On any other value, and on null, they agree |
| MultiSearchParams.ApplyUpdatesValues | hooks/updateMultiSearchParams.ts:12-18 | After the updates, a key no update names keeps its values; any other key has its last update's value, or none when that update is null |
| MultiSearchParams.UpdateMultiSearchParams | hooks/updateMultiSearchParams.ts:8-22 | The loop applies the updates in order, so every key ends up with the values its last update promises; the pushed path is the pathname, '?' and the serialized parameters |
| MultiSearchParams.EmptyStringIsSet | hooks/updateMultiSearchParams.ts:13-14 | An empty string is set as a value, not deleted |
| QueryParams.FromEntries | lib/api/verifyApi.ts:39-41 | `Object.fromEntries` gives each name the value of its last entry, and names no entry has are absent |
| QueryParams.ObjectKeepsLastParams | lib/api/verifyApi.ts:39-41 | A parameter that no later parameter renames reaches the object with its own value only |
| QueryParams.ObjectLacksAbsentNames | lib/api/verifyApi.ts:39-41 | Names no parameter has are absent from the object |
| QueryParams.ObjectKeepsSingleValues | lib/api/verifyApi.ts:39-41 | Names the list gives at most one value reach the object with exactly those values |
| QueryParams.FromEntriesDistinct | lib/api/verifyApi.ts:39-41 | Entries with distinct names come out of the object unchanged, in order |
| ListPages.MetaOrDefault | app/dashboard/user-management/page.tsx:233 | Metadata that is present is kept whatever it holds; without it the list has no items and one page |
| ListPages.DefaultMetaHidesPagination | app/dashboard/user-management/page.tsx:177 | Without metadata no pagination is drawn |
| ListPages.InitialsOfWords | app/dashboard/user-management/page.tsx:350 | A name of words separated by single spaces shows one initial per word: each word's first letter, in order |
| UserManagement.UserParamsValues | app/dashboard/user-management/page.tsx:214-225 | The list query carries page and limit as decimal text, the trimmed search term exactly when it is not blank, the upper-cased role exactly when the filter is neither empty nor "all", and nothing else |
| UserManagement.NoRoleFilterEitherWay | app/dashboard/user-management/page.tsx:212-225 | The page's initial filter "" and the table's "all" ask for the same list, with no role parameter |
| UserManagement.UserManagementPage.constructor | app/dashboard/user-management/page.tsx:209-212 | The page starts on page 1 with limit 10, no search and no role filter |
| UserManagement.UserManagementPage.BuildQueryParams | app/dashboard/user-management/page.tsx:214-225 | The list pushed step by step is the page's list query, page first and limit second |
| UserManagement.UserManagementPage.HandleSearch | app/dashboard/user-management/page.tsx:236-239 | A new search term returns to page 1 and keeps the filter and the limit |
| UserManagement.UserManagementPage.HandleRoleFilter | app/dashboard/user-management/page.tsx:251-254 | A new role filter returns to page 1 and keeps the search and the limit |
| UserManagement.UserManagementPage.HandlePageChange | app/dashboard/user-management/page.tsx:257-259 | A page change sets exactly that page and nothing else |
| UserManagement.TableControls.constructor | app/dashboard/user-management/page.tsx:93-94 | The table starts with no search and the filter "all" |
| UserManagement.TableControls.HandleSearch | app/dashboard/user-management/page.tsx:96-99 | The table keeps the typed text and passes it on, so the page searches it from page 1 |
| UserManagement.TableControls.HandleFilter | app/dashboard/user-management/page.tsx:101-104 | The table keeps the chosen role and passes it on, so the page filters by it from page 1 |
| UserManagement.IndexRange | app/dashboard/user-management/page.tsx:106-107 | On a page that holds items, the item range is non-empty, at most one page long and inside the list; a full page's range ends where the next page's begins |
| UserManagement.NavigationStaysInRange | app/dashboard/user-management/page.tsx:177-203 | From a page of the list, enabled Previous and Next buttons ask for a page of the list; while loading both are disabled |
| UserManagement.StatusTarget | app/dashboard/user-management/page.tsx:263 | Switching on asks for a status whose switch is on, switching off for one whose switch is off, and both are user statuses |
| UserManagement.StatusChange | app/dashboard/user-management/page.tsx:262-282 | A status update is issued exactly when the dialog is confirmed, for that user, with a status whose switch matches the request |
| UserManagement.ToggleFlipsSwitch | app/dashboard/user-management/page.tsx:262-263 | Flipping a row's switch and confirming asks for a status whose switch is the other way round |
| UserManagement.StatusDisplay | app/dashboard/user-management/page.tsx:402-407 | "ACTIVE" reads "Active" and "BLOCKED" reads "Inactive"; any other status is shown as it is |
| UserManagement.RoleDisplay | app/dashboard/user-management/page.tsx:377 | "PARENT" reads "Parent" and "NANNY" reads "Nanny"; any other role is shown as it is |
| UserManagement.DisplaysTellValuesApart | app/dashboard/user-management/page.tsx:377-407 | Different user statuses read differently, and so do the two roles |
| BackgroundCheck.CheckParamsValues | app/dashboard/background-check/page.tsx:184-190 | The list query carries the page and limit text, the untrimmed search exactly when it is not blank, the status exactly when it is neither empty nor "all", and nothing else |
| BackgroundCheck.ChecksRequestCarriesParams | app/dashboard/background-check/page.tsx:184-191 | The request the list endpoint builds from the page's list carries each of those parameters once, with the numeric limit as decimal text, and nothing else |
| BackgroundCheck.BackgroundCheckPage.constructor | app/dashboard/background-check/page.tsx:180-183 | The page starts on page 1 with limit 10, no search and no status filter |
| BackgroundCheck.BackgroundCheckPage.BuildParams | app/dashboard/background-check/page.tsx:184-190 | The list pushed step by step is the page's list query, with the limit as a number |
| BackgroundCheck.BackgroundCheckPage.OnSearch | app/dashboard/background-check/page.tsx:266-269 | A new search returns to page 1 and keeps the status and the limit |
| BackgroundCheck.BackgroundCheckPage.OnFilter | app/dashboard/background-check/page.tsx:270-273 | A new status filter returns to page 1 and keeps the search and the limit |
| BackgroundCheck.BackgroundCheckPage.HandlePageChange | app/dashboard/background-check/page.tsx:200-202 | A page change sets exactly that page and nothing else |
| BackgroundCheck.PaginationStaysInRange | app/dashboard/background-check/page.tsx:150-167 | When the controls are drawn, enabled Prev and Next ask for pages of the list; on the first page only Next is enabled, and on the last only Prev |
| BookingManagement.LookupApiStatus | app/dashboard/booking-management/page.tsx:81-89 | The status lookup as written returns an inherited member exactly for the names of `Object.prototype` |
| BookingManagement.InheritedNameIsNotAStatus | app/dashboard/booking-management/page.tsx:81-89 | The status "toString" reaches the row as a function, where the intended map gives "pending" |
| BookingManagement.MapApiStatus | app/dashboard/booking-management/page.tsx:81-89 | Each of the three named API statuses maps to its own row status, and every other status, or none, maps to pending |
| BookingManagement.LookupAgreesOffPrototype | app/dashboard/booking-management/page.tsx:81-89 | Off the prototype's names, the lookup as written and the intended map agree |
| BookingManagement.FilterValueMapsBack | app/dashboard/booking-management/page.tsx:111-113 | A status filter sent upper-cased maps back to the same status |
| BookingManagement.UpperStatusWord | app/dashboard/booking-management/page.tsx:111-113 | Upper-casing a status word gives the API's spelling of that status |
| BookingManagement.BookingParamsValues | app/dashboard/booking-management/page.tsx:102-113 | The list query carries the page as decimal text, the limit "10", the trimmed search exactly when it is not blank, the upper-cased status exactly when the filter is not "all", and nothing else |
| BookingManagement.PerPageText | app/dashboard/booking-management/page.tsx:100-105 | The page size is written "10" |
| BookingManagement.BuildQueryParams | app/dashboard/booking-management/page.tsx:102-113 | The list pushed step by step is the page's list query, page first and limit "10" second |
| BookingManagement.NameOrNA | app/dashboard/booking-management/page.tsx:157-158 | A present, non-empty name is kept; a missing or empty name becomes "N/A" |
| BookingManagement.TransformBooking | app/dashboard/booking-management/page.tsx:124-166 | A booking's row has the booking's id and type, with location "N/A". A booking of no known kind shows "N/A" for date, time and duration. An overnight booking shows its own date |
| BookingManagement.TransformBookings | app/dashboard/booking-management/page.tsx:124-167 | The rows are one per booking, in order, each the row of its booking |
| BookingManagement.FullDayDate | app/dashboard/booking-management/page.tsx:137-141 | A full-day booking shows its first listed day, or else its start date, with "Full Day" as time and duration |
| BookingManagement.TotalPages | app/dashboard/booking-management/page.tsx:118 | A missing or zero page count gives exactly one page; any other count is kept |
| BookingManagement.TotalItems | app/dashboard/booking-management/page.tsx:119 | A missing total counts as zero items, and a present one is kept |
| BookingManagement.PageWindow | app/dashboard/booking-management/page.tsx:295-303 | The buttons are min(total, 5) consecutive pages, all of them pages of the list, and include the current page |
| BookingManagement.CurrentPageHasButton | app/dashboard/booking-management/page.tsx:295-303 | The current page's button sits at its offset from the first button |
| BookingManagement.ShowingRange | app/dashboard/booking-management/page.tsx:281 | On a page that holds items, "Showing X to Y" names between one and ten items, all in the list; after a full page the next page starts at the following item |
| BookingManagement.PreviousPage | app/dashboard/booking-management/page.tsx:288 | On page 1 or below, Previous gives page 1; otherwise it moves back one page |
| BookingManagement.NextPage | app/dashboard/booking-management/page.tsx:322 | On the last page or beyond, Next gives the last page; otherwise it moves forward one page |
| BookingManagement.NavigationStaysInRange | app/dashboard/booking-management/page.tsx:288-323 | From a page of the list, Previous and Next stay in the list, and an enabled button moves exactly one page |
| BookingManagement.BookingPage.constructor | app/dashboard/booking-management/page.tsx:97-99 | The page starts on page 1 with no search and the filter "all" |
| BookingManagement.BookingPage.HandleSearch | app/dashboard/booking-management/page.tsx:172-175 | A new search returns to page 1 and keeps the filter |
| BookingManagement.BookingPage.HandleStatusFilter | app/dashboard/booking-management/page.tsx:177-180 | A new status filter returns to page 1 and keeps the search |
| BookingManagement.BookingPage.GoToPrevious | app/dashboard/booking-management/page.tsx:288 | The page moves to the previous page and stays at least 1 |
| BookingManagement.BookingPage.GoToNext | app/dashboard/booking-management/page.tsx:322 | The page moves to the next page, capped at the last page |
| BookingManagement.BookingPage.GoToPage | app/dashboard/booking-management/page.tsx:310 | A page button sets exactly its page |
| BannerManagement.SchemaErrors | app/dashboard/banner-management/page.tsx:46-50 | Each empty field gets its own message, and the form is valid exactly when there is none |
| BannerManagement.DataFieldParsesBack | app/dashboard/banner-management/page.tsx:232-237 | The "data" part parses back to exactly the name, description and URL, in order |
| BannerManagement.SubmitForm | app/dashboard/banner-management/page.tsx:229-242 | The form holds "data" first, then "image" exactly when a file was chosen |
| BannerManagement.SubmitRequest | app/dashboard/banner-management/page.tsx:247-260 | A banner with a non-empty id is updated (PATCH) under that id; otherwise a banner is created (POST) |
| BannerManagement.SubmitFailureMessage | app/dashboard/banner-management/page.tsx:273 | The toast shows the server's message, or else names the failed action |
| BannerManagement.NextBannerStatus | app/dashboard/banner-management/page.tsx:305-308 | The switch asks for true exactly when the status is the boolean false |
| BannerManagement.StatusChangeRequest | app/dashboard/banner-management/page.tsx:305-308 | The switch's request is the status update of that banner, and its body ends with the new status |
| BannerManagement.StatusSwitchFlips | app/dashboard/banner-management/page.tsx:305-308 | On a banner with a boolean status, the switch sends the opposite status |
| BannerManagement.PreviewSrc | app/dashboard/banner-management/page.tsx:437 | A preview under "/image" is loaded from the image host, and any other preview is used as it is |
| BannerManagement.PreviewSrcIdempotent | app/dashboard/banner-management/page.tsx:437 | Prefixing the preview twice is the same as prefixing it once |
| BannerManagement.BannerPage.constructor | app/dashboard/banner-management/page.tsx:54-82 | The page starts with both dialogs closed, in create mode, with empty fields as the values and as the reset values, and nothing sent |
| BannerManagement.BannerPage.HandleCreate | app/dashboard/banner-management/page.tsx:190-200 | "Add" opens the dialog in create mode, with empty fields (which become the reset values) and no image |
| BannerManagement.BannerPage.HandleEdit | app/dashboard/banner-management/page.tsx:203-213 | "Edit" opens the dialog on that banner; its fields fill the form and become the reset values, and its image becomes the preview |
| BannerManagement.BannerPage.HandleImageChange | app/dashboard/banner-management/page.tsx:177-187 | A chosen file becomes the image and its data URL the preview; no file changes nothing; every other field is kept |
| BannerManagement.BannerPage.Submit | app/dashboard/banner-management/page.tsx:216-277 | A form the schema refuses sends nothing; the form keeps the submitted values and nothing else changes. Creating without an image sends nothing, asks for one and keeps the submitted values. Otherwise the submit request is sent. Success closes the dialog, and the form returns to the reset values; failure keeps the dialog, holding the submitted values |
| BannerManagement.BannerPage.Send | app/dashboard/banner-management/page.tsx:228-276 | The submit request of the form is sent. Success closes the dialog, the form returns to the reset values, and a success toast names the action. Failure keeps every field and shows the failure message |
| BannerManagement.BannerPage.HandleDelete | app/dashboard/banner-management/page.tsx:279-282 | Delete remembers the banner and opens the confirmation; the form, the image and the preview are kept |
| BannerManagement.BannerPage.CancelDelete | app/dashboard/banner-management/page.tsx:483-486 | Cancel closes the confirmation and forgets the banner; the form, the image and the preview are kept |
| BannerManagement.BannerPage.HandleDeleteConfirm | app/dashboard/banner-management/page.tsx:284-303 | With a remembered banner, its deletion is sent under its id ("undefined" when it has none). Success closes the confirmation and forgets the banner, and failure keeps both. With none, nothing is sent and nothing changes. The form, the image and the preview are always kept |
| BannerManagement.BannerPage.HandleStatusChange | app/dashboard/banner-management/page.tsx:305-321 | A row's switch sends that banner's status change and changes nothing else |
| BannerManagement.BannerPage.HandleDialogClose | app/dashboard/banner-management/page.tsx:323-329 | Closing returns to create mode with no image, and the form returns to the values of the last explicit reset |
| BannerManagement.EditThenClose | app/dashboard/banner-management/page.tsx:323-329 | Opening the dialog on a banner (line 205) and closing it leaves that banner's fields in the form, not empty fields |
| EditBannerModal.OpeningValues | components/banner/EditBannerModal.tsx:80-90 | The form opens with the banner's fields, and a missing one as "" |
| EditBannerModal.OpeningPreview | components/banner/EditBannerModal.tsx:80-90 | The preview opens with the banner's image exactly when it has a non-empty one |
| EditBannerModal.ProcessImage | components/banner/EditBannerModal.tsx:92-137 | A non-image is refused; an image within 2 MB is kept uncompressed; a larger one is compressed at 800/0.8, then the original at 600/0.6, and refused if it is still too large; an accepted file is always within 2 MB |
| EditBannerModal.CompressionOnlyForLargeFiles | components/banner/EditBannerModal.tsx:109-134 | Only files over the limit are compressed: with a compression that never helps, a small image is still accepted and a large one is refused |
| EditBannerModal.UpdateForm | components/banner/EditBannerModal.tsx:161-166 | The form holds the id, then the JSON of the values, then the image exactly when a new file was chosen |
| EditBannerModal.UpdateErrorMessage | components/banner/EditBannerModal.tsx:181-187 | The toast shows the server's message, else the error's message, else a fixed text |
| EditBannerModal.EditModal.constructor | components/banner/EditBannerModal.tsx:64-77 | The modal starts with no file and no preview, with the default values as the values and as the reset values, and nothing sent |
| EditBannerModal.EditModal.OnOpen | components/banner/EditBannerModal.tsx:80-90 | When it opens with a banner, the modal takes the banner's values (which become the reset values) and its image, and no file; otherwise nothing changes |
| EditBannerModal.EditModal.HandleImageChange | components/banner/EditBannerModal.tsx:92-155 | An accepted file becomes the file to send and its data URL the preview; a refused file changes nothing; no compression is under way afterwards |
| EditBannerModal.EditModal.HandleClose | components/banner/EditBannerModal.tsx:197-202 | Closing returns the form to the values of the last reset and drops the file and the preview |
| EditBannerModal.EditModal.HandleSubmit | components/banner/EditBannerModal.tsx:157-195 | Without a banner nothing is sent; the form keeps the submitted values and nothing else changes. Otherwise the update is sent under the banner's id. Success closes the modal, and the form returns to the reset values. Failure returns the error message and keeps the file and the preview, holding the submitted values |
| EditBannerModal.OpenThenClose | components/banner/EditBannerModal.tsx:197-202 | Opening the modal on a banner (line 82) and closing it leaves the banner's values in the form |
| PlatformFee.FeeErrors | app/dashboard/platform-fee/page.tsx:66-82 | Each field has its message exactly when it is empty or reads as negative |
| PlatformFee.ValidIffNoMessage | app/dashboard/platform-fee/page.tsx:66-82 | The form is valid exactly when neither field has a message |
| PlatformFee.Payload | app/dashboard/platform-fee/page.tsx:90-94 | The payload holds both parsed fees, and the stored fee's id exactly when a fee exists |
| PlatformFee.FailureMessage | app/dashboard/platform-fee/page.tsx:103 | The toast shows the server's message, or else names the failed update or creation |
| PlatformFee.PlatformFeePage.constructor | app/dashboard/platform-fee/page.tsx:36-44 | The page starts with the modal closed, a blank form and nothing sent |
| PlatformFee.PlatformFeePage.SetModalOpen | app/dashboard/platform-fee/page.tsx:47-52 | Closing the modal blanks both fields and both messages; opening it changes nothing else |
| PlatformFee.PlatformFeePage.HandleOpenModal | app/dashboard/platform-fee/page.tsx:54-64 | Editing shows the stored fees, or blank fields when there is none, and opens the modal |
| PlatformFee.PlatformFeePage.HandleInputChange | app/dashboard/platform-fee/page.tsx:107-112 | An edit changes only that field and clears only that field's message |
| PlatformFee.PlatformFeePage.ValidateForm | app/dashboard/platform-fee/page.tsx:66-82 | Validation sets both messages and says the form is valid exactly when both fees pass |
| PlatformFee.PlatformFeePage.HandleSubmit | app/dashboard/platform-fee/page.tsx:84-105 | An invalid form shows its messages, keeps both fees and sends nothing. A valid one sends the payload. Success closes the modal and blanks both fees and messages. Failure returns the message and keeps both fees, with no field message |
| BackgroundCheckFee.FeeError | components/feemanage/BackgroundCheckFee.tsx:61-72 | The fee has its message exactly when it is empty or reads as negative |
| BackgroundCheckFee.SaveRequest | components/feemanage/BackgroundCheckFee.tsx:80-84 | A valid form sends the parsed fee, and only it, to the fee endpoint |
| BackgroundCheckFee.FailureMessage | components/feemanage/BackgroundCheckFee.tsx:91 | The toast shows the server's message, or else a fixed text |
| BackgroundCheckFee.BackgroundCheckFeeCard.constructor | components/feemanage/BackgroundCheckFee.tsx:34-40 | The card starts with the modal closed, a blank form and nothing sent |
| BackgroundCheckFee.BackgroundCheckFeeCard.SetModalOpen | components/feemanage/BackgroundCheckFee.tsx:43-48 | Closing the modal blanks the field and its message; opening it changes nothing else |
| BackgroundCheckFee.BackgroundCheckFeeCard.HandleOpenModal | components/feemanage/BackgroundCheckFee.tsx:50-59 | Editing shows the stored fee, or a blank field when there is none, and opens the modal |
| BackgroundCheckFee.BackgroundCheckFeeCard.HandleInputChange | components/feemanage/BackgroundCheckFee.tsx:95-100 | An edit sets the field and clears its message |
| BackgroundCheckFee.BackgroundCheckFeeCard.ValidateForm | components/feemanage/BackgroundCheckFee.tsx:61-72 | Validation sets the message and says the form is valid exactly when the fee passes |
| BackgroundCheckFee.BackgroundCheckFeeCard.HandleSubmit | components/feemanage/BackgroundCheckFee.tsx:74-93 | An invalid form shows its message, keeps the fee and sends nothing. A valid one sends the fee. Success closes the modal and blanks the fee and its message. Failure returns the message and keeps the fee, with no field message |
| CreateAdmin.WithField | app/dashboard/create-admin/page.tsx:145-148 | The named field takes the value, and the other three keep theirs |
| CreateAdmin.ValidationError | app/dashboard/create-admin/page.tsx:163-171 | A form with an empty field is refused for that first; a complete form is refused exactly when its password is shorter than 8 UTF-16 code units; otherwise it is accepted |
| CreateAdmin.InitialFormIsRefused | app/dashboard/create-admin/page.tsx:74-79 | The freshly reset form is refused for its missing fields |
| CreateAdmin.FilledFormIsAccepted | app/dashboard/create-admin/page.tsx:74-79 | A name, an e-mail and a password of at least 8 code units typed into the initial form make it acceptable, because the role is preset |
| CreateAdmin.FailureMessage | app/dashboard/create-admin/page.tsx:179 | The error shows the server's message, or else a fixed text |
| CreateAdmin.DeleteGuard | app/dashboard/create-admin/page.tsx:136 | A super admin can never be deleted, and no admin can be while a delete is in flight; a plain admin otherwise can |
| CreateAdmin.CreateAdminPage.constructor | app/dashboard/create-admin/page.tsx:73-80 | The page starts with the dialog closed, the initial form, no error and nothing sent |
| CreateAdmin.CreateAdminPage.HandleInputChange | app/dashboard/create-admin/page.tsx:145-148 | An edit changes only that field and clears the error |
| CreateAdmin.CreateAdminPage.HandleSubmit | app/dashboard/create-admin/page.tsx:159-182 | A refused form shows its error and sends nothing. An accepted form is sent; success closes the dialog and resets the form, and failure shows the message and keeps the form |
| Sidebar.OverviewOnlyOnExactMatch | components/layout/Sidebar.tsx:77-78 | The overview entry is highlighted on "/dashboard" only |
| Sidebar.CreateAdminAndVerifyTogether | components/layout/Sidebar.tsx:37-38 | "Create Admin" and "Verify" share one href, so they are always highlighted together |
| Sidebar.SectionHrefsIndependent | components/layout/Sidebar.tsx:31-42 | No section href is a prefix of another unless the two are equal |
| Sidebar.ActiveOnMenuPage | components/layout/Sidebar.tsx:31-42 | On the page an entry links to, exactly the entries with that href are highlighted |
| Sidebar.Toggle | components/layout/Sidebar.tsx:65 | The button negates the collapsed flag |
| Sidebar.ToggleFlipsLabels | components/layout/Sidebar.tsx:61-91 | One press shows hidden labels or hides shown ones, and two presses restore the sidebar |

## Left out

- The RTK Query cache itself is not modelled. That covers request deduplication, cache lifetimes, the fetch itself, and the refetch a page triggers by hand. Each API slice is modelled by the request its endpoint builds and by the tags it provides or invalidates.
- `fetchBaseQuery` joining the base URL with the path is not modelled, and neither is the serialization of a JSON body. Requests carry the path, the parameters and the body as values.
- Rendering is not modelled: JSX, toasts and SweetAlert dialogs. The answer of a confirmation dialog is a parameter, and so is the answer of each server call.
- `compressImage` draws on a canvas, and `FileReader` builds the data URL. Both are browser work, so each is given as a parameter.
- `parseFloat` and `Number.prototype.toString` are parameters. A fee text that reads as NaN passes validation, as the code's `< 0` test lets it.
- Reading `window.location` is not modelled; the hooks take the pathname and the parsed query pairs as arguments. Decoding `+` and `%` escapes is not modelled either: the query reader covers only text without them, and its round trip is stated for such pairs.
- `router.push` is not modelled; the hooks return the path they push.
- The settings pages, the text editor, the fee-management page and the dashboard overview page are not modelled: they only render or forward content.
- The debounce effect of the user-management search (app/dashboard/user-management/page.tsx:242-248) is not modelled, because it depends on a timer.
- The admin deletion call and its `parseInt` of the id (app/dashboard/create-admin/page.tsx:150-157) are not modelled; only the guard on the delete button is.
- The user-management delete handler (app/dashboard/user-management/page.tsx:304-338) is not modelled.
- The background-check table's local copies of the search and the filter (app/dashboard/background-check/page.tsx:77-78, 89-102) are not modelled.
- JsText.ToUpperCase maps only the ASCII letters. Every status and role word the pages upper-case is ASCII.
- JsonText.StringifyObject writes objects whose properties all hold strings. JsonText.ParseObject reads only the text `JSON.stringify` writes for such objects; any other text counts as a parse failure. A `JsonEntry` form part is kept as its object, and StringifyObject gives its text.
- QueryParams.FromEntries keeps names in order of first appearance. It does not move integer-like names to the front as JavaScript objects do; no page sends such a name.
- ListPages.Initials takes the first UTF-16 code unit of each word as one character, so surrogate pairs are not modelled.
- Date formatting (`formatDate`, `toLocaleDateString`) is not modelled; dates are shown as the text the API returns.
- The edit modal's catch path, "Error processing image", is not modelled: compression is a total function here.
- AuthStore.ParseUser reads only the text `JSON.stringify` writes for a user: an object with the four fields `id`, `name`, `email` and `role`, in that order (auth_store.dfy, lines 33-40). `JSON.parse` (lib/store.ts:80) accepts any JSON text. So a stored user text with other fields or another field order counts as unreadable here, and AfterLoad's restoration is stated only for texts ParseUser reads.
- BookingManagement.TransformBooking: the row's status comes from the corrected MapApiStatus. The page looks the status up in a plain object (app/dashboard/booking-management/page.tsx:84-88, 162). For an API status named after an `Object.prototype` member, the page stores that inherited member; the model gives "pending" (see Findings).
- BookingManagement.TransformBookings builds each row with TransformBooking, so it has the same status substitution.
- The booking, user, admin and platform-fee API slices are not part of this model. Their requests are modelled only where the pages build them.

## Findings

| source | as written | input that shows it | evidently intended | confidence | as-written member | corrected member |
|---|---|---|---|---|---|---|
| app/dashboard/booking-management/page.tsx:81-89 | `map[apiStatus] \|\| 'pending'` looks the status up in a plain object literal, so names inherited from `Object.prototype` are found too | a booking whose status is "toString": the row's status is a function, not one of the four statuses | every status other than the three named ones maps to "pending" | not executed | BookingManagement.LookupApiStatus (BookingManagement.InheritedNameIsNotAStatus) | BookingManagement.MapApiStatus (BookingManagement.LookupAgreesOffPrototype, BookingManagement.FilterValueMapsBack) |
| lib/api/dashboardApi.ts:13 | the card-data URL ends in "?=year=${data?.year}" | year 2024: the query parses as one pair with the empty name and the value "year=2024", and no `year` parameter | "?year=${data?.year}", as the user-statistics and revenue endpoints write it | not executed | DashboardApi.CardDataRequest (DashboardApi.CardDataYearIsLost) | DashboardApi.CardDataRequestCorrected (DashboardApi.CardDataCorrectedCarriesYear) |
