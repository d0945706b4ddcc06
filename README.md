# Movie search UI: verified model of its state machines

This project models the logic underneath a browser movie-search front end
built from custom elements: a search form, a paginated result list, a
detail modal, an application coordinator that relays their events, and a
client for an external movie-metadata API (search by title with paging,
fetch by id). Markup, styling, the DOM and the network are removed. What
remains is the state each component holds and how its handlers change it.

- `wrappers.dfy` (`Wrappers`): `Option` and `Result`.
- `movie_service.dfy` (`MovieService`): the API client. The decoded JSON
  reply is an input record. The client builds the query parameters
  (`apikey`, `s`, `page`, then `type` only when non-empty; `apikey`, `i`,
  `plot=full` for details). It decides success exactly when `Response` is
  `"True"`, computes `hasMore = page * 10 < totalResults`, and otherwise
  raises `Error`, or a fixed message when `Error` is absent or empty
  (JavaScript `||`). The page number written with `toString` is modelled as
  a decimal string (the form `toString` gives below 10^21), with a proved
  round trip.
- `movie_search_form.dfy` (`MovieSearchForm`): `String.prototype.trim` over
  the ECMAScript WhiteSpace and LineTerminator code points. `Trim` is fully
  characterised. The uniqueness lemma `TrimOfPadded` pins it down, and
  `TrimOfTrimmed` gives idempotence. A
  submit emits the trimmed text only when it is non-empty.
- `movie_list.dfy` (`ListComponent.MovieList`): a class with the fields
  `movies`, `hasMore` and `isLoading`. Its methods replace, append and
  toggle busy. `View` is the render branch: empty message, or a grid with
  a load-more control that exists only when `hasMore` and is disabled
  exactly when busy. A click on that control emits only when the list is
  not busy.
- `movie_modal.dfy` (`ModalComponent.MovieModal`): a class with the fields
  `isVisible`, `isLoading` and `movieData`. It has `Show`, `Hide`,
  `SetMovieData`, `SetLoading`, the backdrop/close clicks and Escape.
  `Content` is the displayed body: a spinner while loading, else the
  details if present, else nothing. `PosterOf` is the poster-or-placeholder
  choice.
- `movie_app.dfy` (`AppComponent.MovieApp`): the coordinator. Each `await`
  becomes two explicit steps. `BeginSearch`/`BeginFetchDetails` run up to
  the network call and return the request issued. `CompleteSearch` and
  `CompleteFetchDetails` take the fetched outcome and return the alert the
  code would show. A ghost field `inFlight` records the awaited search.
  `Valid` states that the single guard is up exactly while a search is
  awaited, that the search spinner shows exactly during a new search, and
  that the list is busy exactly during a load-more.
- `app_scenarios.dfy` (`AppScenarios`): verified scenarios, fixed step
  sequences from a fresh application with their end state proved. They
  show the two-page pagination case and the double click on load-more. They
  also show the quirks of the code as written (below).

The model follows the handler code where the design intent differs from
it. The load-more and detail items below describe what the handlers do
once their events arrive; as noted under "## Left out", in a browser
those events do not reach the coordinator at all.

- The `search` handler overwrites `currentQuery` and resets `currentPage`
  before the guard is checked, so a dropped search still changes both.
- The `load-more` handler increments `currentPage` before the guard. A
  load-more clicked during a new search is dropped, yet it advances the
  page, so the next load-more asks for page 3 and page 2 is never fetched
  (`AppScenarios.LoadMoreDuringSearch`).
- The coordinator has no `hasMore` guard of its own. Only the list's
  rendering of the control limits load-more.
- Detail replies are delivered with no check of the requested id or of the
  modal's visibility. The late reply for an earlier id is the one shown. A
  reply arriving after the modal closed is stored in the hidden modal
  (`AppScenarios.StaleDetail`).

## Model

| member | source | states |
|---|---|---|
| `MovieService.SearchParams` | src/services/MovieService.js:11-19 | parameters are `apikey`, `s`, `page` in that order, plus `type` last exactly when the type is non-empty; looking up `s`, `type` and `page` gives back the title, the type filter and the page number |
| `MovieService.DetailParams` | src/services/MovieService.js:53-57 | detail parameters are `apikey`, `i` = the id, `plot` = `full`, and carry no `s` or `page` |
| `MovieService.DecimalString` | src/services/MovieService.js:14 | the page text is a non-empty string of decimal digits with no leading zero |
| `MovieService.DecimalRoundTrip` | src/services/MovieService.js:14 | reading the page text back as a decimal number gives the page number |
| `MovieService.ErrorMessage` | src/services/MovieService.js:40 | `Error` when present and non-empty, else the fallback; never empty when the fallback is not |
| `MovieService.Search` | src/services/MovieService.js:30-41 | a result exactly when `Response` is `"True"`, with `movies` the reply's `Search`, the reply's total, and `hasMore` exactly when `page * 10 < totalResults`; otherwise the non-empty error message `Error` or `"Search failed"` |
| `MovieService.SearchOutcome` | src/services/MovieService.js:24-45 | a transfer or decoding failure is passed on with its own message; a decoded reply is normalised for the requested page |
| `MovieService.HasMoreBoundary` | src/services/MovieService.js:34 | a successful page ending exactly at the total (`page * 10 == totalResults`) reports no more |
| `MovieService.HasMoreAntitone` | src/services/MovieService.js:34 | once a page reports no more, every later page does too |
| `MovieService.GetMovie` | src/services/MovieService.js:62-66 | the reply unchanged exactly when `Response` is `"True"`; otherwise the non-empty message `Error` or `"Movie not found"` |
| `MovieService.GetMovieOutcome` | src/services/MovieService.js:59-70 | a transfer or decoding failure is passed on with its own message; a decoded reply goes through the detail decision |
| `MovieSearchForm.TrimStart` | src/components/MovieSearchForm.js:22 | the result is a suffix of the input, everything removed is whitespace, and it does not start with whitespace |
| `MovieSearchForm.TrimEnd` | src/components/MovieSearchForm.js:22 | the result is a prefix of the input, everything removed is whitespace, and it does not end with whitespace |
| `MovieSearchForm.Trim` | src/components/MovieSearchForm.js:22 | the result has no whitespace at either end, is the input minus whitespace padding on both sides, and is empty exactly when the input is all whitespace |
| `MovieSearchForm.TrimStartPadded` | src/components/MovieSearchForm.js:22 | trimming the start removes exactly a whitespace prefix placed before a non-whitespace character |
| `MovieSearchForm.TrimEndPadded` | src/components/MovieSearchForm.js:22 | trimming the end removes exactly a whitespace suffix placed after a non-whitespace character |
| `MovieSearchForm.TrimOfPadded` | src/components/MovieSearchForm.js:22 | any whitespace + core + whitespace split whose core has no whitespace at its ends has that core as its trim |
| `MovieSearchForm.TrimOfTrimmed` | src/components/MovieSearchForm.js:22 | a string with no whitespace at either end is its own trim |
| `MovieSearchForm.TrimIdempotent` | src/components/MovieSearchForm.js:22 | trimming twice equals trimming once |
| `MovieSearchForm.Submit` | src/components/MovieSearchForm.js:20-34 | a search event is emitted exactly when the input is not all whitespace; its query is `trim(input)`, non-empty, with no whitespace at its ends |
| `MovieSearchForm.ResubmitIsStable` | src/components/MovieSearchForm.js:22-25 | submitting an emitted query again emits the same query |
| `ListComponent.MovieList.constructor` | src/components/MovieList.js:2-8 | starts empty, with no more pages, not busy |
| `ListComponent.MovieList.SetMovies` | src/components/MovieList.js:14-18 | `movies` and `hasMore` replaced; `isLoading` unchanged |
| `ListComponent.MovieList.AddMovies` | src/components/MovieList.js:20-24 | `movies` is the old list followed by the new page; the old list is a prefix and the lengths add; `isLoading` unchanged |
| `ListComponent.MovieList.SetLoading` | src/components/MovieList.js:26-29 | only `isLoading` changes |
| `ListComponent.MovieList.LoadMoreControl` | src/components/MovieList.js:31-40 | the load-more control is disabled, labelled `Loading...` and shows its spinner exactly when the list is busy; otherwise it reads `Load More` |
| `ListComponent.MovieList.View` | src/components/MovieList.js:125-142 | empty message exactly when there are no movies; otherwise the grid of all movies, with the load-more control (in the state above) exactly when `hasMore` |
| `ListComponent.MovieList.ClickLoadMore` | src/components/MovieList.js:42-53 | a load-more event is emitted exactly when the control exists and the list is not busy; an emitting control is enabled |
| `ModalComponent.PosterOf` | src/components/MovieModal.js:293-296 | the poster image exactly when `Poster` is present, non-empty and not `N/A`, using that URL; else the placeholder |
| `ModalComponent.MovieModal.constructor` | src/components/MovieModal.js:2-8 | starts hidden, not loading, without data |
| `ModalComponent.MovieModal.Content` | src/components/MovieModal.js:286-290 | spinner exactly when loading; details of the held data exactly when not loading and data is present; nothing otherwise |
| `ModalComponent.MovieModal.Show` | src/components/MovieModal.js:15-25 | visible, loading, data cleared, spinner displayed, and the fetch request carries the same id |
| `ModalComponent.MovieModal.Hide` | src/components/MovieModal.js:27-30 | hidden; loading state and data unchanged |
| `ModalComponent.MovieModal.SetMovieData` | src/components/MovieModal.js:32-36 | data held, not loading, visibility unchanged, details displayed |
| `ModalComponent.MovieModal.SetLoading` | src/components/MovieModal.js:38-41 | only `isLoading` changes |
| `ModalComponent.MovieModal.Click` | src/components/MovieModal.js:48-66 | backdrop and close button hide the modal; a click on the content changes nothing |
| `ModalComponent.MovieModal.KeyDown` | src/components/MovieModal.js:68-73 | Escape hides a visible modal; otherwise nothing changes; data and loading never change |
| `AppComponent.MovieApp.constructor` | src/components/MovieApp.js:4-11 | empty query, page 1, guard down, spinner hidden, fresh empty list and hidden modal |
| `AppComponent.MovieApp.BeginSearch` | src/components/MovieApp.js:57-83 | with the guard up nothing changes and no request is issued; otherwise the guard goes up, the spinner (new search) or list busy state (load-more) is set, and the request is the current query, an empty type and the current page |
| `AppComponent.MovieApp.CompleteSearch` | src/components/MovieApp.js:86-118 | the guard drops, spinner and list busy are cleared; new-search success replaces the list with the result's movies and `hasMore`; load-more success appends; new-search failure empties the list with no more pages; load-more failure keeps the list; failure alerts `"Search failed: "` + message |
| `AppComponent.MovieApp.OnSearch` | src/components/MovieApp.js:23-29 | query and page 1 are set even when the search is then dropped; otherwise a page-1 request for that query is issued |
| `AppComponent.MovieApp.OnLoadMore` | src/components/MovieApp.js:32-35 | the page advances by one even when the load-more is then dropped; otherwise the request is for the advanced page and the list is busy |
| `AppComponent.MovieApp.SubmitSearch` | src/components/MovieSearchForm.js:20-34 | blank input changes nothing and issues nothing; otherwise the trimmed query becomes current at page 1 and a request is issued exactly when the guard was down; the list is never touched and a dropped submit leaves the awaited search as it was |
| `AppComponent.MovieApp.ClickLoadMore` | src/components/MovieList.js:45-51 | nothing happens unless the control exists and the list is not busy; then the page advances and a request is issued exactly when the guard was down |
| `AppComponent.MovieApp.OnShowDetails` | src/components/MovieApp.js:38-42 | the modal opens in its loading state and a detail request for the same id is issued |
| `AppComponent.MovieApp.BeginFetchDetails` | src/components/MovieApp.js:122-127 | the modal is set loading and the request carries the given id |
| `AppComponent.MovieApp.CompleteFetchDetails` | src/components/MovieApp.js:127-133 | success stores the detail in the modal and displays it whatever its visibility or id; failure hides the modal and alerts the fixed message |
| `AppScenarios.Pagination` | src/components/MovieApp.js:83-97 | a search for `inception` with 10 of 12 results has more; a second page of 2 gives 12 movies, no more, page 2 |
| `AppScenarios.DoubleLoadMore` | src/components/MovieList.js:45-51 | a second load-more click while the first is awaited is swallowed: one request for page 2 |
| `AppScenarios.LoadMoreDuringSearch` | src/components/MovieApp.js:32-35 | a load-more during a new search is dropped but advances the page, so the next load-more requests page 3 |
| `AppScenarios.DroppedSearch` | src/components/MovieApp.js:23-28 | a dropped search still becomes the current query while the earlier search's reply fills the list |
| `AppScenarios.StaleDetail` | src/components/MovieApp.js:122-128 | the late reply for an earlier id is displayed, and a reply after closing is stored in the hidden modal |

## Left out

- Rendering. Template strings, CSS, shadow-DOM work (`innerHTML`, `cloneNode`, `querySelector`) and the detail fields printed in the modal, including the ratings line, are markup. Only the branch conditions are kept.
- Network and decoding. `fetch`, `response.json()` and URL assembly with `URLSearchParams` are foreign calls. The reply is an input record, and a failed transfer or decode is a `TransportError` with its message. The parameter list stands for the query string.
- `MovieService.Search`: `totalResults` is taken as an already parsed `nat`, so `parseInt` is not modelled. Non-numeric text gives `NaN` and negative text a negative number; in both cases `hasMore` is false. Partial parses such as `"12abc"` (giving 12) are not modelled either.
- Number width. Pages and totals are unbounded `nat`, not JavaScript doubles. `toString` switches to exponent notation (`"1e+21"`) from 10^21 on, and `currentPage++` stops changing the value at 2^53. `DecimalString` is the decimal form below 10^21 only.
- String encoding. JavaScript strings are sequences of UTF-16 code units, while a Dafny `string` is a sequence of Unicode scalar values, so lone surrogates cannot be expressed. Every whitespace code point `trim` removes lies in the Basic Multilingual Plane, so `Trim` behaves as `trim` on every string the model can express.
- The fixed API key and base URL are parameters or left out. `console` logging is left out. `alert` is replaced by the message returned from the completion steps.
- Event plumbing. Bubbling, `addEventListener` registration and `customElements.define` become direct method calls.
- Event delivery across shadow roots. `load-more` (src/components/MovieList.js:47-49), `show-details` (src/components/MovieItem.js:34-37) and `fetch-movie-details` (src/components/MovieModal.js:21-24) bubble but are not `composed`. They are dispatched inside the coordinator's or the list's shadow tree, so by the DOM's event-path rules they stop at that shadow root and never reach the listeners on the coordinator's host (src/components/MovieApp.js:32-48). Only `search` is `composed`. As written, a load-more click therefore never advances the page or fetches, and a details click never opens the modal. The direct calls `ClickLoadMore`, `OnShowDetails` and `BeginFetchDetails` model the intended wiring, not this delivery; the load-more and detail scenarios describe the handler code under that wiring. The document-level Escape listener is added again on every modal render. The model keeps one listener, because every listener after the first finds the modal already hidden.
- `ListComponent.MovieList.SetMovies`: the JavaScript default `hasMore = false` is not a separate form. The one caller that relies on it, the new-search failure path, passes `false`.
- Asynchrony. The browser event loop is not modelled. Each `await` is a Begin step and a Complete step. A search completion can only follow its own `BeginSearch` (its precondition names the in-flight request); detail completions may arrive in any order callers choose.
- Missing elements. The branches taken when the list, the spinner, the form or the input element is not found are left out: the model assumes a rendered application.
- `MovieItem` (card rendering and its own poster check) and `LoadingSpinner` (a visibility toggle) are not part of this model. The spinner's visibility is kept as a field of the coordinator.
