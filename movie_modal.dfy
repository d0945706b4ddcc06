/** The detail modal: whether it is shown, whether it is waiting for a
    detail reply, and the detail last delivered. */
module ModalComponent {
  import opened Wrappers
  import opened MovieService

  /** The body of the modal: a spinner, the details of one movie, or nothing. */
  datatype Content = Spinner | Details(movie: DetailReply) | Blank

  /** Where a click inside the modal lands: the backdrop around the
      content, the close button, or the content itself. */
  datatype ClickTarget = Backdrop | CloseButton | ContentArea

  /** The poster area of the details view. */
  datatype PosterView = PosterImage(url: string) | NoPoster

  /** The poster choice: the image when `Poster` is present, non-empty and
      not "N/A", otherwise the placeholder. */
  function PosterOf(d: DetailReply): (p: PosterView)
    ensures p.PosterImage? <==> d.poster.Some? && d.poster.value != "" && d.poster.value != "N/A"
    ensures p.PosterImage? ==> p.url == d.poster.value
  {
    if d.poster.Some? && d.poster.value != "" && d.poster.value != "N/A" then PosterImage(d.poster.value) else NoPoster
  }

  class MovieModal {
    var isVisible: bool
    var isLoading: bool
    var movieData: Option<DetailReply>

    constructor ()
      ensures !isVisible && !isLoading && movieData == None
    {
      isVisible := false;
      isLoading := false;
      movieData := None;
    }

    /** What the modal body displays; loading takes precedence over data. */
    function Content(): (c: Content)
      reads this
      ensures c.Spinner? <==> isLoading
      ensures c.Details? <==> !isLoading && movieData.Some?
      ensures c.Details? ==> c.movie == movieData.value
      ensures c.Blank? <==> !isLoading && movieData.None?
    {
      if isLoading then Spinner
      else if movieData.Some? then Details(movieData.value)
      else Blank
    }

    /** Opens the modal in its loading state and emits a fetch request for
        `movieId`, returned as `requested`. */
    method Show(movieId: string) returns (requested: string)
      modifies this
      ensures isVisible && isLoading && movieData == None
      ensures Content() == Spinner
      ensures requested == movieId
    {
      isVisible := true;
      isLoading := true;
      movieData := None;
      requested := movieId;
    }

    /** Closes the modal; loading state and data stay as they were. */
    method Hide()
      modifies this
      ensures !isVisible && isLoading == old(isLoading) && movieData == old(movieData)
    {
      isVisible := false;
    }

    /** Delivers a detail; visibility is not consulted and not changed. */
    method SetMovieData(data: DetailReply)
      modifies this
      ensures movieData == Some(data) && !isLoading && isVisible == old(isVisible)
      ensures Content() == Details(data)
    {
      movieData := Some(data);
      isLoading := false;
    }

    method SetLoading(loading: bool)
      modifies this
      ensures isLoading == loading && isVisible == old(isVisible) && movieData == old(movieData)
    {
      isLoading := loading;
    }

    /** A click: the backdrop and the close button hide the modal; a click
        on the content is stopped there and changes nothing. */
    method Click(target: ClickTarget)
      modifies this
      ensures isLoading == old(isLoading) && movieData == old(movieData)
      ensures isVisible == (old(isVisible) && target == ContentArea)
    {
      if target != ContentArea {
        Hide();
      }
    }

    /** A key press on the document: Escape hides a visible modal; any
        other key, or Escape on a hidden modal, changes nothing. */
    method KeyDown(key: string)
      modifies this
      ensures isLoading == old(isLoading) && movieData == old(movieData)
      ensures isVisible == (old(isVisible) && key != "Escape")
    {
      if key == "Escape" && isVisible {
        Hide();
      }
    }
  }
}
