/** The application coordinator: it relays search, load-more and detail
    events to the metadata client and pushes the outcomes into the list
    and the modal.  Every `await` is split into a Begin step, which runs up
    to the network call and returns the request it issues, and a Complete
    step, which takes the fetched outcome and runs the rest. */
module AppComponent {
  import opened Wrappers
  import opened MovieService
  import opened MovieSearchForm
  import opened ListComponent
  import opened ModalComponent

  /** The outstanding search: which kind of call started it and the
      request it issued (the page is captured when the call starts). */
  datatype InFlightSearch = InFlightSearch(isNewSearch: bool, request: SearchRequest)

  const DetailFailureMessage := "Failed to load movie details. Please try again."

  class MovieApp {
    var currentQuery: string
    var currentPage: nat
    /** The single guard shared by new searches and load-more. */
    var isLoading: bool
    /** The visibility of the search spinner above the list. */
    var searchSpinnerVisible: bool
    const list: MovieList
    const modal: MovieModal
    /** The search whose reply is awaited, if any. */
    ghost var inFlight: Option<InFlightSearch>

    /** The guard is up exactly while a search is awaited; the search
        spinner shows exactly while a new search is awaited and the list is
        busy exactly while a load-more is awaited. */
    ghost predicate Valid()
      reads this, list
    {
      currentPage >= 1 &&
      (isLoading <==> inFlight.Some?) &&
      (searchSpinnerVisible <==> inFlight.Some? && inFlight.value.isNewSearch) &&
      (list.isLoading <==> inFlight.Some? && !inFlight.value.isNewSearch) &&
      (inFlight.Some? ==> inFlight.value.request.kind == "" && inFlight.value.request.page >= 1)
    }

    constructor ()
      ensures Valid() && fresh(list) && fresh(modal)
      ensures currentQuery == "" && currentPage == 1 && !isLoading && !searchSpinnerVisible
      ensures list.movies == [] && !list.hasMore
      ensures !modal.isVisible && !modal.isLoading && modal.movieData == None
    {
      currentQuery := "";
      currentPage := 1;
      isLoading := false;
      searchSpinnerVisible := false;
      list := new MovieList();
      modal := new MovieModal();
      inFlight := None;
    }

    /** `searchMovies` up to its await.  While the guard is up the call
        returns at once and issues nothing; otherwise it raises the guard,
        shows the search spinner (new search) or marks the list busy
        (load-more), and issues a search for the current query and page. */
    method BeginSearch(isNewSearch: bool) returns (req: Option<SearchRequest>)
      requires Valid()
      modifies this, list
      ensures Valid()
      ensures currentQuery == old(currentQuery) && currentPage == old(currentPage)
      ensures list.movies == old(list.movies) && list.hasMore == old(list.hasMore)
      ensures old(isLoading) ==> req == None && unchanged(this) && unchanged(list)
      ensures !old(isLoading) ==>
        req == Some(SearchRequest(currentQuery, "", currentPage)) &&
        inFlight == Some(InFlightSearch(isNewSearch, req.value))
    {
      if isLoading {
        return None;
      }
      isLoading := true;
      if isNewSearch {
        searchSpinnerVisible := true;
      } else {
        list.SetLoading(true);
      }
      req := Some(SearchRequest(currentQuery, "", currentPage));
      inFlight := Some(InFlightSearch(isNewSearch, req.value));
    }

    /** `searchMovies` after its await.  A new search replaces the list on
        success and empties it on failure; a load-more appends on success
        and keeps the list on failure.  A failure surfaces an alert.  The
        guard drops in every case. */
    method CompleteSearch(isNewSearch: bool, req: SearchRequest, fetched: Fetched<SearchReply>) returns (alert: Option<string>)
      requires Valid() && inFlight == Some(InFlightSearch(isNewSearch, req))
      modifies this, list
      ensures Valid() && !isLoading && inFlight == None
      ensures !searchSpinnerVisible && !list.isLoading
      ensures currentQuery == old(currentQuery) && currentPage == old(currentPage)
      ensures var r := SearchOutcome(req, fetched);
        if r.Success? then
          alert == None && list.hasMore == r.value.hasMore &&
          list.movies == (if isNewSearch then r.value.movies else old(list.movies) + r.value.movies)
        else
          alert == Some("Search failed: " + r.error) &&
          (isNewSearch ==> list.movies == [] && !list.hasMore) &&
          (!isNewSearch ==> list.movies == old(list.movies) && list.hasMore == old(list.hasMore))
    {
      var r := SearchOutcome(req, fetched);
      if r.Success? {
        if isNewSearch {
          list.SetMovies(r.value.movies, r.value.hasMore);
          searchSpinnerVisible := false;
        } else {
          list.AddMovies(r.value.movies, r.value.hasMore);
          list.SetLoading(false);
        }
        alert := None;
      } else {
        if isNewSearch {
          list.SetMovies([], false);
          searchSpinnerVisible := false;
        } else {
          list.SetLoading(false);
        }
        alert := Some("Search failed: " + r.error);
      }
      isLoading := false;
      inFlight := None;
    }

    /** The `search` handler: the query and page are overwritten before
        the guard is consulted, so a dropped search still changes them. */
    method OnSearch(query: string) returns (req: Option<SearchRequest>)
      requires Valid()
      modifies this, list
      ensures Valid()
      ensures currentQuery == query && currentPage == 1
      ensures list.movies == old(list.movies) && list.hasMore == old(list.hasMore)
      ensures old(isLoading) ==> req == None && isLoading && inFlight == old(inFlight)
      ensures !old(isLoading) ==>
        req == Some(SearchRequest(query, "", 1)) && searchSpinnerVisible &&
        inFlight == Some(InFlightSearch(true, req.value))
    {
      currentQuery := query;
      currentPage := 1;
      req := BeginSearch(true);
    }

    /** The `load-more` handler: the page is advanced before the guard is
        consulted, so a dropped load-more still advances it. */
    method OnLoadMore() returns (req: Option<SearchRequest>)
      requires Valid()
      modifies this, list
      ensures Valid()
      ensures currentQuery == old(currentQuery) && currentPage == old(currentPage) + 1
      ensures list.movies == old(list.movies) && list.hasMore == old(list.hasMore)
      ensures old(isLoading) ==> req == None && isLoading && inFlight == old(inFlight)
      ensures !old(isLoading) ==>
        req == Some(SearchRequest(currentQuery, "", old(currentPage) + 1)) && list.isLoading &&
        inFlight == Some(InFlightSearch(false, req.value))
    {
      currentPage := currentPage + 1;
      req := BeginSearch(false);
    }

    /** A submit of the search form: nothing happens for blank input;
        otherwise the trimmed query is handed to the `search` handler. */
    method SubmitSearch(input: string) returns (req: Option<SearchRequest>)
      requires Valid()
      modifies this, list
      ensures Valid()
      ensures list.movies == old(list.movies) && list.hasMore == old(list.hasMore)
      ensures req == None ==> inFlight == old(inFlight)
      ensures AllWhitespace(input) ==> req == None && unchanged(this) && unchanged(list)
      ensures !AllWhitespace(input) ==>
        currentQuery == Trim(input) && currentPage == 1 &&
        (req.Some? <==> !old(isLoading)) &&
        (req.Some? ==> req.value == SearchRequest(Trim(input), "", 1) && inFlight == Some(InFlightSearch(true, req.value)))
    {
      var query := Submit(input);
      if query.Some? {
        req := OnSearch(query.value);
      } else {
        req := None;
      }
    }

    /** A click on the list's load-more control: the list's own busy check
        comes first, then the `load-more` handler. */
    method ClickLoadMore() returns (req: Option<SearchRequest>)
      requires Valid()
      modifies this, list
      ensures Valid()
      ensures !(old(list.HasLoadMoreButton()) && !old(list.isLoading)) ==> req == None && unchanged(this) && unchanged(list)
      ensures currentQuery == old(currentQuery)
      ensures old(list.HasLoadMoreButton()) && !old(list.isLoading) ==>
        currentPage == old(currentPage) + 1 && (req.Some? <==> !old(isLoading))
      ensures req == None ==> inFlight == old(inFlight)
      ensures list.movies == old(list.movies) && list.hasMore == old(list.hasMore)
      ensures req.Some? ==>
        req.value == SearchRequest(currentQuery, "", currentPage) && list.isLoading &&
        inFlight == Some(InFlightSearch(false, req.value))
    {
      var emitted := list.ClickLoadMore();
      if emitted {
        req := OnLoadMore();
      } else {
        req := None;
      }
    }

    /** The `show-details` handler: the modal opens in its loading state and
        its fetch event runs `fetchMovieDetails` synchronously up to the
        await, which issues a detail request for the same id. */
    method OnShowDetails(movieId: string) returns (requested: string)
      requires Valid()
      modifies modal
      ensures Valid()
      ensures modal.isVisible && modal.isLoading && modal.movieData == None
      ensures modal.Content() == Spinner
      ensures requested == movieId
    {
      var emitted := modal.Show(movieId);
      requested := BeginFetchDetails(emitted);
    }

    /** `fetchMovieDetails` up to its await. */
    method BeginFetchDetails(movieId: string) returns (requested: string)
      requires Valid()
      modifies modal
      ensures Valid()
      ensures modal.isLoading && modal.isVisible == old(modal.isVisible) && modal.movieData == old(modal.movieData)
      ensures requested == movieId
    {
      modal.SetLoading(true);
      requested := movieId;
    }

    /** `fetchMovieDetails` after its await.  A detail is delivered to the
        modal whatever id it was fetched for and whether or not the modal
        is still open; a failure hides the modal and surfaces an alert. */
    method CompleteFetchDetails(movieId: string, fetched: Fetched<DetailReply>) returns (alert: Option<string>)
      requires Valid()
      modifies modal
      ensures Valid()
      ensures var r := GetMovieOutcome(fetched);
        if r.Success? then
          alert == None && modal.movieData == Some(r.value) && !modal.isLoading &&
          modal.isVisible == old(modal.isVisible) && modal.Content() == Details(r.value)
        else
          alert == Some(DetailFailureMessage) && !modal.isVisible &&
          modal.isLoading == old(modal.isLoading) && modal.movieData == old(modal.movieData)
    {
      var r := GetMovieOutcome(fetched);
      if r.Success? {
        modal.SetMovieData(r.value);
        alert := None;
      } else {
        modal.Hide();
        alert := Some(DetailFailureMessage);
      }
    }
  }
}
