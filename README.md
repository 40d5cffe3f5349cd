# AJiO queue fetcher and phone-number handling, in Dafny

AJiO is an iOS app that searches the public queue API of the Polish
National Health Fund for the waiting lists of health-care providers. This
project models the logic at its core and proves properties about it:

- **The queue fetcher** (`AJiO/Managers/NetworkManager.swift`). `fetchData`
  requests one page of 25 records at a time. It clears the results when it
  starts from page 1. Each request passes a rate gate that allows at most ten
  requests per one-second window. Each decoded page is appended. The fetcher
  keeps asking for the next page while fewer records have arrived than the
  total the first page reported. `cancelFetch` resets the search.
  Module `PagedFetcher`.
- **The earlier fetcher** (`AJiO/NetworkManager.swift`). It pages the same
  way, but has no rate gate. It sends the province as "0" followed by its
  number and keeps the last response. It never clears its total. Module
  `LegacyFetcher`.
- **Phone-number formatting** (`AJiO/Extensions/String+ext.swift`). It drops
  dashes and puts a '+' in front. Module `PhoneFormat`.
- **Phone-number validation** (`AJiO/Views/ListItemDetails.swift`). This is
  the regular expression that decides whether the detail view offers a
  `tel:` link for the formatted number. Module `PhoneValidation`.

Both fetchers follow the same pattern. A pure specification gives the
fields as a datatype:

- `Request` is one activation of `fetchData` past its re-entry guard. It
  includes the main-actor task that activation spawns, up to the point where
  the task asks for the next page.
- `Run` is the whole chain of activations. It reads one server exchange per
  page.
- `Fetch` adds the re-entry guard.
- `Cancelled` is `cancelFetch`.

Each fetcher also has a class `NetworkManager` with the source's fields. Its
methods change those fields in place:

- `FetchPage` is one activation.
- `FetchData` is a loop of activations, one page per iteration.
- `CancelFetch` is `cancelFetch`.

Each method's postcondition says that the new fields equal what the
specification gives for the old ones. The lemmas then state what the app
relies on:

- pages are requested in order;
- records are appended in arrival order;
- the total is captured once;
- a run ends exactly when the total is reached;
- the rate limit holds;
- a search after `cancelFetch` starts afresh.

The environment enters as values:

- An `Exchange` is the clock reading in milliseconds when the request is
  made, plus the server's answer: the HTTP status and the decoded body, or
  none when decoding fails.
- A run is given the sequence of exchanges the server answers with.

Shared values live in module `Api`: records, pages, responses, query items,
and the decimal rendering of integers.

## Model

| member | source | states |
|---|---|---|
| Api.QueryItems | AJiO/Managers/NetworkManager.swift:48-57 | a page request carries eight query items with distinct names, and its "page" item is the decimal rendering of the page number |
| Api.IntToString | AJiO/Managers/NetworkManager.swift:49 | Swift's `String(Int)`: a non-empty string; for a non-negative value all digits with no leading zero (except "0" itself); for a negative value '-' followed by digits that do not start with '0' |
| Api.IntToStringRoundTrip | AJiO/Managers/NetworkManager.swift:49 | the decimal rendering of any integer, negative ones included, reads back as that integer |
| Api.QueryCarriesParameters | AJiO/Managers/NetworkManager.swift:48-57 | the query carries the page number (readable back as an integer), the page size 25, and the province and search term exactly as given |
| PagedFetcher.Gate | AJiO/Managers/NetworkManager.swift:63-80 | after the accounting the count is between 1 and 10 and the window has started; a request sleeps exactly when the window is under one second old and already holds 10 requests, and then until the window's second is over; a running window counts one more request, and a replacement window is later and holds just this one; when the clock has not gone back, the request goes out inside the window it is counted in |
| PagedFetcher.Request | AJiO/Managers/NetworkManager.swift:31-106 | one activation: the request is for the current page and is counted by the gate; starting from page 1 drops the records and the total; `isFetching` is false afterwards; a non-200 status is badRequest and an undecodable body is badJSON, and both append nothing and keep the total, page and `shouldFetchMore`; a decoded page is appended after the existing records, and its count becomes the total only when none is known; the chain goes on exactly when fewer records than the total are held, moving to the next page, and otherwise ends on page 1 with `shouldFetchMore` false |
| PagedFetcher.RequestKeepsConsistent | AJiO/Managers/NetworkManager.swift:63-105 | every activation keeps the page at least 1 and the rate window within its cap |
| PagedFetcher.Run | AJiO/Managers/NetworkManager.swift:92-105 | the chain of activations reads at most one exchange per request and makes at least one request when there is an exchange; it ends with `isFetching` false; it is never ignored; it stops before the exchanges run out only by completing or failing |
| PagedFetcher.Fetch | AJiO/Managers/NetworkManager.swift:31-33 | a call is ignored exactly when a fetch is running, and then changes nothing and sends no request |
| PagedFetcher.Cancelled | AJiO/Managers/NetworkManager.swift:112-118 | after `cancelFetch` nothing is fetching, there are no records, the page is 1 and there is no total; the rate window and `shouldFetchMore` are kept; a consistent state stays consistent |
| PagedFetcher.RunRequestsConsecutivePages | AJiO/Managers/NetworkManager.swift:99-105 | a run asks for consecutive pages from the current one, with the same province and term; a run still waiting for a page has moved on by one page per exchange |
| PagedFetcher.RunAppendsPagesInOrder | AJiO/Managers/NetworkManager.swift:97 | after a run the records are the starting records (none when starting at page 1) followed by the records of every page that arrived, in arrival order; a failed run fails on an exchange that did not succeed |
| PagedFetcher.RunCapturesTotalOnce | AJiO/Managers/NetworkManager.swift:93-95 | a run starting at page 1 takes its total from the first page, or has none if that page fails; a continuing run keeps the total it had |
| PagedFetcher.RunEndsAtTotal | AJiO/Managers/NetworkManager.swift:99-105 | a completed run holds at least the total, is back at page 1 and has `shouldFetchMore` false; a run still waiting for a page holds fewer than the total; a failed run stays on the page that failed; `shouldFetchMore` changes only on completion |
| PagedFetcher.RunRespectsRateLimit | AJiO/Managers/NetworkManager.swift:63-80 | over a whole run no one-second window counts more requests than it has room for, so never more than 10 |
| PagedFetcher.CancelThenFetchStartsFresh | AJiO/Managers/NetworkManager.swift:112-118 | after `cancelFetch` the next search requests page 1 first, its records are exactly those of its own delivered pages, and its total comes from its own first page |
| PagedFetcher.ThirtyRecordsTakeTwoRequests | AJiO/Managers/NetworkManager.swift:99-105 | a search reporting 30 records and answered with 25 and then 5 makes exactly two requests (pages 1 and 2), ends with 30 records and total 30, and is back at page 1 |
| PagedFetcher.NetworkManager.constructor | AJiO/Managers/NetworkManager.swift:13-21 | the shared manager starts with no records, no total, page 1 and no rate window |
| PagedFetcher.NetworkManager.CountRequest | AJiO/Managers/NetworkManager.swift:63-80 | the in-place rate accounting leaves `requestStartTime` and `requestCount` as `Gate` gives them and returns the same sleep; no other field changes |
| PagedFetcher.NetworkManager.FetchPage | AJiO/Managers/NetworkManager.swift:31-106 | one activation changes the fields exactly as `Request` does and leaves `isFetching` false |
| PagedFetcher.NetworkManager.FetchData | AJiO/Managers/NetworkManager.swift:31-110 | the page loop leaves the fields, outcome and requests exactly as `Fetch` gives them; a call made while fetching changes nothing |
| PagedFetcher.NetworkManager.CancelFetch | AJiO/Managers/NetworkManager.swift:112-118 | afterwards `isFetching` is false, there are no records, the page is 1 and there is no total; the rate window and `shouldFetchMore` are untouched |
| LegacyFetcher.ProvinceQuery | AJiO/NetworkManager.swift:50 | the province value starts with '0', has at least two characters, and is all digits for a non-negative province |
| LegacyFetcher.ProvinceQueryRoundTrip | AJiO/NetworkManager.swift:50 | after the leading '0' the value reads back as the province number |
| LegacyFetcher.ProvinceQueryLength | AJiO/NetworkManager.swift:50 | provinces 0-9 give two characters and provinces 10-99 give three |
| LegacyFetcher.ProvinceQueryExamples | AJiO/NetworkManager.swift:50 | province 6 is sent as "06" and province 12 as "012" |
| LegacyFetcher.Request | AJiO/NetworkManager.swift:28-85 | one activation: the request is for the current page with the "0"-prefixed province; starting from page 1 drops the records but not the total; errors as in the later fetcher, and they leave the last response, total and page alone; a decoded page becomes the last response and is appended; a known total is never replaced; the continuation rule is the same as in the later fetcher |
| LegacyFetcher.Run | AJiO/NetworkManager.swift:70-84 | the chain of activations reads at most one exchange per request and makes at least one request when there is an exchange; it ends with `isFetching` false; it is never ignored; it stops before the exchanges run out only by completing or failing |
| LegacyFetcher.Fetch | AJiO/NetworkManager.swift:28-31 | a call is ignored exactly when a fetch is running, and then changes nothing and sends no request |
| LegacyFetcher.Cancelled | AJiO/NetworkManager.swift:92-96 | after `cancelFetch` nothing is fetching, there are no records and the page is 1; the total, the last response and `shouldFetchMore` are kept |
| LegacyFetcher.RunRequestsConsecutivePages | AJiO/NetworkManager.swift:78-84 | a run asks for consecutive pages from the current one with the same "0"-prefixed province value and term; a run still waiting for a page has moved on by one page per exchange |
| LegacyFetcher.RunAppendsPagesInOrder | AJiO/NetworkManager.swift:75-76 | after a run the records are the starting records (none from page 1) followed by every delivered page's records, in arrival order |
| LegacyFetcher.RunKeepsLastPage | AJiO/NetworkManager.swift:75 | after a run with a delivered page, `apiResponse` is the last delivered page; without one it is unchanged |
| LegacyFetcher.TotalIsNeverReset | AJiO/NetworkManager.swift:71-73 | once known, the total survives every later call of `fetchData` and `cancelFetch`; when unknown, the first successful page sets it |
| LegacyFetcher.RunEndsAtTotal | AJiO/NetworkManager.swift:78-84 | a completed run holds at least the total it keeps (possibly an earlier search's) and is back at page 1; a waiting run holds fewer; a failed run stays on the failed page |
| LegacyFetcher.StaleTotalStopsEarly | AJiO/NetworkManager.swift:37-39 | after a search with 5 results and `cancelFetch`, a new search whose server reports 30 and sends 25 completes after one request with 25 records, still holding total 5 |
| LegacyFetcher.NetworkManager.constructor | AJiO/NetworkManager.swift:11-16 | the manager starts with no response, no records, no total and page 1 |
| LegacyFetcher.NetworkManager.FetchPage | AJiO/NetworkManager.swift:28-85 | one activation changes the fields exactly as `Request` does and leaves `isFetching` false |
| LegacyFetcher.NetworkManager.FetchData | AJiO/NetworkManager.swift:28-90 | the page loop leaves the fields, outcome and requests exactly as `Fetch` gives them; a call made while fetching changes nothing |
| LegacyFetcher.NetworkManager.CancelFetch | AJiO/NetworkManager.swift:92-96 | afterwards `isFetching` is false, there are no records and the page is 1; the total and the last response stay |
| PhoneFormat.RemoveDashes | AJiO/Extensions/String+ext.swift:15-17 | the result has no dash |
| PhoneFormat.RemoveDashesKeepsOthers | AJiO/Extensions/String+ext.swift:15-17 | every other character is kept, in order and with its multiplicity, so the length drops by the number of dashes |
| PhoneFormat.RemoveDashesKeepsDashFree | AJiO/Extensions/String+ext.swift:15-17 | a string without dashes is left unchanged |
| PhoneFormat.RemoveDashesAppend | AJiO/Extensions/String+ext.swift:15-17 | removing dashes from a concatenation is the concatenation of the two parts with their dashes removed |
| PhoneFormat.RemoveDashesAcrossDash | AJiO/Extensions/String+ext.swift:15-17 | two parts joined by a dash lose that dash and nothing else |
| PhoneFormat.FormatPhoneNumber | AJiO/Extensions/String+ext.swift:11-19 | an input of at most one character gives ""; a longer one gives a result that starts with '+'; the result never contains a dash |
| PhoneFormat.FormatKeepsOtherCharacters | AJiO/Extensions/String+ext.swift:14-18 | for a longer input, the result is a '+' (only when the input did not start with one) followed by the input's non-dash characters in order; its length is the input's, minus the dashes, plus 1 when a '+' was added |
| PhoneFormat.FormatIsIdempotent | AJiO/Extensions/String+ext.swift:11-19 | formatting a formatted number longer than one character changes nothing |
| PhoneFormat.FormatOfShortOutputIsEmpty | AJiO/Extensions/String+ext.swift:12-17 | without that length condition idempotence fails: "--" formats to "+", which formats to "" |
| PhoneFormat.FormatJoinsDashedGroups | AJiO/Extensions/String+ext.swift:14-15 | groups written with dashes between them ("48-123-456-789") become '+' followed by the groups run together |
| PhoneFormat.FormatKeepsPlus | AJiO/Extensions/String+ext.swift:16-17 | a number that starts with '+' keeps it and only loses its dashes |
| PhoneValidation.IsValidPolishPhoneNumber | AJiO/Views/ListItemDetails.swift:150-155 | a string is valid exactly when it is "+48", three groups of three digits (each perhaps behind one space or dash) and any trailing text, or exactly two digits followed by two such groups |
| PhoneValidation.Group | AJiO/Views/ListItemDetails.swift:151 | one `[ -]?\d{3}` consumes three or four characters and leaves a suffix of the input |
| PhoneValidation.Groups | AJiO/Views/ListItemDetails.swift:151 | n groups consume at least 3n characters |
| PhoneValidation.GroupReadsForm | AJiO/Views/ListItemDetails.swift:151 | a group (three digits, perhaps after one space or dash) followed by anything is read as exactly that group |
| PhoneValidation.GroupConsumesForm | AJiO/Views/ListItemDetails.swift:151 | what one group step consumes is such a group |
| PhoneValidation.GroupsAppend | AJiO/Views/ListItemDetails.swift:151 | text after matched groups does not change how they are read |
| PhoneValidation.InternationalMatchHasForm | AJiO/Views/ListItemDetails.swift:151-154 | whatever the first alternative matches is "+48", three groups and any rest |
| PhoneValidation.InternationalFormIsMatched | AJiO/Views/ListItemDetails.swift:151-154 | "+48", three groups and any rest is matched |
| PhoneValidation.InternationalMatchesForm | AJiO/Views/ListItemDetails.swift:151-154 | the first alternative matches exactly the strings that are "+48", three groups and any trailing text |
| PhoneValidation.DomesticMatchesForm | AJiO/Views/ListItemDetails.swift:151 | the second alternative matches exactly the strings that are two digits and two groups, with nothing after them |
| PhoneValidation.TrailingText | AJiO/Views/ListItemDetails.swift:151-154 | trailing text keeps a "+48" match, but breaks a domestic match |
| PhoneValidation.Rejected | AJiO/Views/ListItemDetails.swift:151-154 | the empty string is rejected, and so is a '+' string that does not start with "+48" or has fewer than twelve characters, such as "+4812345678" |
| PhoneValidation.DomesticNumberIsValid | AJiO/Views/ListItemDetails.swift:151 | "dd ddd ddd" is accepted as it stands |
| PhoneValidation.ShowsPhoneLink | AJiO/Views/ListItemDetails.swift:126-130 | the view offers a link exactly when the entry has a phone number whose formatted form matches the "+48" alternative; such a number has more than one character |
| PhoneValidation.FormattedNumbersAreNeverDomestic | AJiO/Views/ListItemDetails.swift:126-130 | on a formatted number the domestic alternative never matches, so validity is the "+48" alternative alone |
| PhoneValidation.LinkNeedsCountryCode | AJiO/Views/ListItemDetails.swift:126-130 | a link is offered only for a number that, without its dashes, starts with "+48", or with "48" when it had no '+' |
| PhoneValidation.DashedNumberShowsLink | AJiO/Views/ListItemDetails.swift:126-130 | every number given as "48-ddd-ddd-ddd" gets a link |
| PhoneValidation.DomesticNumberShowsNoLink | AJiO/Views/ListItemDetails.swift:126-130 | a domestic number "dd ddd ddd", though valid as it stands, never gets a link, because formatting prefixes a '+' |
| PhoneValidation.PhoneURLAsWritten | AJiO/Views/ListItemDetails.swift:132 | the link target is "tel:+" followed by the whole formatted number |
| PhoneValidation.LinkDoublesPlus | AJiO/Views/ListItemDetails.swift:132 | every link the view offers starts "tel:++" |
| PhoneValidation.PhoneURL | AJiO/Views/ListItemDetails.swift:132 | with the scheme alone in front, the target is "tel:" followed by the formatted number |
| PhoneValidation.LinkDialsCountryCode | AJiO/Views/ListItemDetails.swift:132 | with the scheme alone in front, every offered link is "tel:+48" followed by three digit groups |

## Left out

- `invalidURL` is not modelled. Both fetchers build their URL from a constant base and fixed query items through `URLComponents`, a library call. Neither `Request` has that error path.
- URLSession, JSON decoding and dates are left out. A response enters as its status plus its decoded page, or as no page when decoding fails. Only a record's `id` is kept.
- PagedFetcher.Run and LegacyFetcher.Run run the spawned main-actor task in sequence, right after its activation has finished. The model does not capture another `fetchData` call slipping in between two pages.
- LegacyFetcher.Run assumes that each activation has reset `isFetching` before its task asks for the next page. The earlier class has no actor annotation, so `fetchData` runs off the main actor while its task runs on it. Nothing orders the activation's `defer` before the task's recursive call. That call can find `isFetching` still true and return at once, which ends the chain silently. The model does not capture this outcome.
- PagedFetcher.Run and LegacyFetcher.Run do not capture `cancelFetch` running while an activation waits: during the sleep or the network request of the later fetcher, or the network request of the earlier one. The search view calls `cancelFetch` on every edit of the search text, so a new search can start while an old request is in flight. The old page is then appended to the new search's records. The model treats each activation as atomic.
- PagedFetcher.Request and LegacyFetcher.Request do not model a transport error from `URLSession.shared.data`, such as no connection or a timeout. In the app that error is thrown to the caller of `fetchData`, after the page-1 reset and, in the later fetcher, after the request was counted. `Response` always carries a status and `FetchError` has no case for it.
- PagedFetcher.Run and LegacyFetcher.Run report a failure on page 2 or later as the run's outcome. In the app that error is thrown inside the task and reaches no caller. Only the first page's error reaches the caller of `fetchData`.
- PagedFetcher.Run and LegacyFetcher.Run read one exchange per page. When the exchanges run out while the chain still wants a page, the outcome is `AwaitingPage`. The model does not follow a chain longer than the exchanges given. The app's chain can go on for ever when the server keeps sending empty pages.
- PagedFetcher.Gate reads the clock as whole milliseconds rather than a floating-point `Date`. It takes the window restarted after a sleep to begin exactly one second after the old one. Cancellation of `Task.sleep` is not modelled. The "inside its window" property assumes the clock has not gone back.
- LegacyFetcher.NetworkManager does not model `currentTask`. The task is stored but never cancelled, so storing it has no effect on the model's fields.
- Integers are unbounded. The Swift `Int` overflow trap on `currentPage += 1` and on `requestCount += 1` is not modelled.
- Debug `print` calls are left out.
- PhoneFormat and PhoneValidation treat a Swift `Character` as one `char`. They do not model grapheme clusters or Unicode normalisation. `self.count > 1` is taken as the length of the character sequence.
- PhoneValidation.IsValidPolishPhoneNumber reads `\d` as the ASCII digits 0-9, while Swift's `Regex` also accepts other Unicode decimal digits. It reads `$` as the end of the string only, not the position before a final newline.
- PhoneValidation.ShowsPhoneLink does not model the branch where `URL(string:)` returns nil and the view shows "Unable to create phone link." instead of a link. URL parsing is a library call, so the model takes every valid number as giving a link.
- The views are not part of this model, apart from the format-then-validate step and the link target. This covers layout, navigation, search debounce, loading animation and `LocationManager`. The region helpers the views call are not part of this model either: their definitions are not in the modelled files.

## Findings

| source | as written | input that shows it | evidently intended | confidence | as-written member | corrected member |
|---|---|---|---|---|---|---|
| AJiO/NetworkManager.swift:37-39 | page 1 clears only the records; `totalItems` is never cleared, neither there nor in `cancelFetch` | search with 5 results, `cancelFetch`, new search whose server reports 30 and sends 25 per page: the fetch stops after one page with 25 records and total 5 | a new search captures its own total, as the later fetcher does by clearing it on page 1 and in `cancelFetch` | high; not executed | LegacyFetcher.StaleTotalStopsEarly | PagedFetcher.CancelThenFetchStartsFresh |
| AJiO/Views/ListItemDetails.swift:132 | the link target is "tel:+" in front of the formatted number, which already starts with '+' | phone "48-123-456-789": the link target is "tel:++48123456789" | "tel:" in front of the formatted number, giving "tel:+48123456789" | medium; not executed | PhoneValidation.LinkDoublesPlus | PhoneValidation.LinkDialsCountryCode |
