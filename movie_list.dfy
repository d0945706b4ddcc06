/** The result list: the movies shown so far, whether more pages exist,
    and whether a load-more request is in progress. */
module ListComponent {
  import opened Wrappers
  import opened MovieService

  /** The load-more control: its disabled flag, its text and the
      visibility of the spinner beside it. */
  datatype LoadMoreButton = LoadMoreButton(disabled: bool, text: string, spinnerVisible: bool)

  /** What the list renders: the empty-state message, or the grid of
      movies with the load-more control when more pages exist. */
  datatype ListView = NoResults | Grid(items: seq<Movie>, loadMore: Option<LoadMoreButton>)

  class MovieList {
    var movies: seq<Movie>
    var hasMore: bool
    var isLoading: bool

    constructor ()
      ensures movies == [] && !hasMore && !isLoading
    {
      movies := [];
      hasMore := false;
      isLoading := false;
    }

    /** Replaces the list; `isLoading` is untouched.  The source's default
        `hasMore = false` is passed explicitly by callers. */
    method SetMovies(ms: seq<Movie>, more: bool)
      modifies this
      ensures movies == ms && hasMore == more && isLoading == old(isLoading)
    {
      movies := ms;
      hasMore := more;
    }

    /** Appends a page: the old list stays a prefix. */
    method AddMovies(ns: seq<Movie>, more: bool)
      modifies this
      ensures movies == old(movies) + ns && hasMore == more && isLoading == old(isLoading)
      ensures |movies| == |old(movies)| + |ns| && old(movies) <= movies
    {
      movies := movies + ns;
      hasMore := more;
    }

    /** Toggles the busy state and nothing else. */
    method SetLoading(loading: bool)
      modifies this
      ensures isLoading == loading && movies == old(movies) && hasMore == old(hasMore)
    {
      isLoading := loading;
    }

    /** The load-more control is rendered only over a non-empty grid with
        more pages to fetch. */
    predicate HasLoadMoreButton()
      reads this
    {
      |movies| > 0 && hasMore
    }

    /** The state `updateLoadMoreButton` gives the load-more control:
        disabled, relabelled and with its spinner shown exactly while busy. */
    function LoadMoreControl(): (b: LoadMoreButton)
      reads this
      ensures b.disabled == isLoading && b.spinnerVisible == isLoading
      ensures b.text == if isLoading then "Loading..." else "Load More"
    {
      LoadMoreButton(isLoading, if isLoading then "Loading..." else "Load More", isLoading)
    }

    /** The rendered state: markup is dropped, the branch structure and the
        control's state (kept in step with `isLoading` by the button
        update that runs on every render and every busy toggle) remain. */
    function View(): (v: ListView)
      reads this
      ensures v.NoResults? <==> |movies| == 0
      ensures v.Grid? ==> v.items == movies
      ensures v.Grid? ==> (v.loadMore.Some? <==> hasMore)
      ensures v.Grid? && v.loadMore.Some? ==> v.loadMore.value == LoadMoreControl()
      ensures v.Grid? && v.loadMore.Some? ==> v.loadMore.value.disabled == isLoading
    {
      if |movies| > 0 then
        Grid(movies, if HasLoadMoreButton() then Some(LoadMoreControl()) else None)
      else NoResults
    }

    /** A click on the load-more control: whether a load-more event is
        emitted.  Without the control there is nothing to click. */
    method ClickLoadMore() returns (emitted: bool)
      ensures emitted <==> HasLoadMoreButton() && !isLoading
      ensures emitted ==> View().Grid? && View().loadMore.Some? && !View().loadMore.value.disabled
    {
      emitted := HasLoadMoreButton() && !isLoading;
    }
  }
}
