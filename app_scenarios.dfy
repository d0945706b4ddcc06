/** Scenarios: fixed sequences of coordinator steps from a freshly
    rendered application, each proved to end in the stated state and so
    showing one behaviour of the event handlers end to end. */
module AppScenarios {
  import opened Wrappers
  import opened MovieService
  import opened ModalComponent
  import opened AppComponent

  function Hit(id: string): Movie {
    Movie(id, "", "", "movie", None)
  }

  function Hits(n: nat, id: string): (hs: seq<Movie>)
    ensures |hs| == n
  {
    seq(n, _ => Hit(id))
  }

  function Found(id: string): DetailReply {
    DetailReply("True", None, id, "", "", "", "", "movie", "", "", "", "", "", "", "", None, [])
  }

  /** Page 1 of 12 results has more; the second page brings the list to
      12 movies and has no more. */
  method Pagination() returns (firstMore: bool, count: nat, more: bool, page: nat)
    ensures firstMore
    ensures count == 12 && !more && page == 2
  {
    var app := new MovieApp();
    var first := app.OnSearch("inception");
    var _ := app.CompleteSearch(true, first.value, Received(SearchReply("True", Hits(10, "tt1375666"), 12, None)));
    firstMore := app.list.hasMore;
    var second := app.ClickLoadMore();
    var _ := app.CompleteSearch(false, second.value, Received(SearchReply("True", Hits(2, "tt0000001"), 12, None)));
    count := |app.list.movies|;
    more := app.list.hasMore;
    page := app.currentPage;
  }

  /** A second click on load-more while the first is awaited is swallowed
      by the busy list: one request goes out and the page advances once. */
  method DoubleLoadMore() returns (first: Option<SearchRequest>, second: Option<SearchRequest>, page: nat)
    ensures first == Some(SearchRequest("batman", "", 2)) && second == None && page == 2
  {
    var app := new MovieApp();
    var search := app.OnSearch("batman");
    var _ := app.CompleteSearch(true, search.value, Received(SearchReply("True", Hits(10, "tt0096895"), 30, None)));
    first := app.ClickLoadMore();
    second := app.ClickLoadMore();
    page := app.currentPage;
  }

  /** A load-more clicked while a new search is awaited is dropped but
      still advances the page, so the next load-more after the new search
      asks for page 3 and page 2 is never fetched. */
  method LoadMoreDuringSearch() returns (dropped: Option<SearchRequest>, next: Option<SearchRequest>)
    ensures dropped == None && next == Some(SearchRequest("superman", "", 3))
  {
    var app := new MovieApp();
    var s1 := app.OnSearch("batman");
    var _ := app.CompleteSearch(true, s1.value, Received(SearchReply("True", Hits(10, "tt0096895"), 30, None)));
    var s2 := app.OnSearch("superman");
    dropped := app.ClickLoadMore();
    var _ := app.CompleteSearch(true, s2.value, Received(SearchReply("True", Hits(10, "tt0078346"), 30, None)));
    next := app.ClickLoadMore();
  }

  /** A search submitted while another is awaited is dropped, yet it has
      already replaced the current query: the earlier reply fills the list
      under the later query. */
  method DroppedSearch() returns (dropped: Option<SearchRequest>, query: string, shown: seq<Movie>)
    ensures dropped == None && query == "superman" && shown == Hits(10, "tt0096895")
  {
    var app := new MovieApp();
    var s1 := app.OnSearch("batman");
    dropped := app.OnSearch("superman");
    var _ := app.CompleteSearch(true, s1.value, Received(SearchReply("True", Hits(10, "tt0096895"), 30, None)));
    query := app.currentQuery;
    shown := app.list.movies;
  }

  /** No staleness check: a reply for an earlier id that arrives last is
      the one displayed, and a reply arriving after the modal was closed
      is stored in the hidden modal. */
  method StaleDetail() returns (shown: Content, hiddenData: Option<DetailReply>, visible: bool)
    ensures shown == Details(Found("tt001"))
    ensures hiddenData == Some(Found("tt003")) && !visible
  {
    var app := new MovieApp();
    var r1 := app.OnShowDetails("tt001");
    var r2 := app.OnShowDetails("tt002");
    var _ := app.CompleteFetchDetails(r2, Received(Found("tt002")));
    var _ := app.CompleteFetchDetails(r1, Received(Found("tt001")));
    shown := app.modal.Content();
    var r3 := app.OnShowDetails("tt003");
    app.modal.KeyDown("Escape");
    var _ := app.CompleteFetchDetails(r3, Received(Found("tt003")));
    hiddenData := app.modal.movieData;
    visible := app.modal.isVisible;
  }
}
