/** The movie metadata client: the search and detail calls against the
    external metadata API, with the network replaced by the reply it
    delivers.  The reply is taken already decoded into a record. */
module MovieService {
  import opened Wrappers

  /** The number of results the API returns per page. */
  const PageSize: nat := 10

  /** One search hit, as it appears in the reply's `Search` array. */
  datatype Movie = Movie(imdbID: string, title: string, year: string, kind: string, poster: Option<string>)

  /** A decoded search reply: the `Response` discriminator, the hits, the
      total (taken as already parsed) and the optional `Error` text. */
  datatype SearchReply = SearchReply(response: string, search: seq<Movie>, totalResults: nat, error: Option<string>)

  datatype Rating = Rating(source: string, value: string)

  /** A decoded detail reply.  On success the client hands this record
      back unchanged, so it is also the detail the modal displays. */
  datatype DetailReply = DetailReply(
    response: string, error: Option<string>,
    imdbID: string, title: string, year: string, rated: string, runtime: string, kind: string,
    plot: string, genre: string, director: string, writer: string, actors: string,
    language: string, country: string, poster: Option<string>, ratings: seq<Rating>)

  /** What the network step yields: a decoded reply, or the message of the
      exception thrown by the transfer or by JSON decoding. */
  datatype Fetched<T> = Received(reply: T) | TransportError(message: string)

  /** The normalised successful search result. */
  datatype SearchResult = SearchResult(movies: seq<Movie>, totalResults: nat, hasMore: bool)

  /** The arguments of one search call: title, optional type filter, page. */
  datatype SearchRequest = SearchRequest(title: string, kind: string, page: nat)

  /** One query-string parameter, in the order it is added. */
  datatype Param = Param(key: string, value: string)

  // ---------------------------------------------------------------------
  // Query parameters
  // ---------------------------------------------------------------------

  /** The value of the first parameter named `key`, if any. */
  function Lookup(ps: seq<Param>, key: string): (v: Option<string>)
    ensures v.Some? <==> exists k :: 0 <= k < |ps| && ps[k].key == key
  {
    if |ps| == 0 then None
    else if ps[0].key == key then Some(ps[0].value)
    else Lookup(ps[1..], key)
  }

  function Digit(d: nat): (c: char)
    requires d < 10
    ensures '0' <= c <= '9'
  {
    "0123456789"[d]
  }

  predicate AllDigits(s: string) {
    forall k :: 0 <= k < |s| ==> '0' <= s[k] <= '9'
  }

  /** The decimal text of `n`, as `Number.prototype.toString` gives it for
      a non-negative integer below 10^21: digits only, no leading zero. */
  function DecimalString(n: nat): (s: string)
    ensures |s| >= 1 && AllDigits(s)
    ensures s[0] == '0' ==> n == 0 && s == "0"
  {
    if n < 10 then [Digit(n)] else DecimalString(n / 10) + [Digit(n % 10)]
  }

  /** The number a string of decimal digits denotes; the reading side of
      `DecimalString`. */
  function DecimalValue(s: string): nat
    requires AllDigits(s)
  {
    if |s| == 0 then 0 else DecimalValue(s[..|s| - 1]) * 10 + (s[|s| - 1] - '0') as nat
  }

  /** The page number written into the query string reads back as the same number. */
  lemma {:induction false} DecimalRoundTrip(n: nat)
    ensures DecimalValue(DecimalString(n)) == n
  {
    var s := DecimalString(n);
    if n >= 10 {
      DecimalRoundTrip(n / 10);
      assert s[..|s| - 1] == DecimalString(n / 10);
      assert s[|s| - 1] == Digit(n % 10);
    }
  }

  /** The parameters of a search request: `apikey`, `s`, `page` in that
      order, then `type` only when the type filter is non-empty. */
  method SearchParams(apiKey: string, req: SearchRequest) returns (ps: seq<Param>)
    ensures |ps| == if req.kind == "" then 3 else 4
    ensures ps[..3] == [Param("apikey", apiKey), Param("s", req.title), Param("page", DecimalString(req.page))]
    ensures req.kind != "" ==> ps[3] == Param("type", req.kind)
    ensures Lookup(ps, "s") == Some(req.title)
    ensures Lookup(ps, "type") == if req.kind == "" then None else Some(req.kind)
    ensures var p := Lookup(ps, "page"); p.Some? && AllDigits(p.value) && DecimalValue(p.value) == req.page
  {
    ps := [Param("apikey", apiKey), Param("s", req.title), Param("page", DecimalString(req.page))];
    if req.kind != "" {
      ps := ps + [Param("type", req.kind)];
    }
    DecimalRoundTrip(req.page);
    assert Lookup(ps, "page") == Lookup(ps[1..], "page") == Lookup(ps[2..], "page");
    assert Lookup(ps, "type") == Lookup(ps[1..], "type") == Lookup(ps[2..], "type") == Lookup(ps[3..], "type");
  }

  /** The parameters of a detail request: `apikey`, `i`, `plot=full`. */
  function DetailParams(apiKey: string, movieId: string): (ps: seq<Param>)
    ensures |ps| == 3 && ps[0] == Param("apikey", apiKey)
    ensures Lookup(ps, "i") == Some(movieId)
    ensures Lookup(ps, "plot") == Some("full")
    ensures Lookup(ps, "s") == None && Lookup(ps, "page") == None
  {
    var ps := [Param("apikey", apiKey), Param("i", movieId), Param("plot", "full")];
    assert Lookup(ps, "plot") == Lookup(ps[1..], "plot") == Lookup(ps[2..], "plot");
    ps
  }

  // ---------------------------------------------------------------------
  // Success or error decision
  // ---------------------------------------------------------------------

  /** JavaScript's `error || fallback` on an optional string: an absent or
      empty `Error` falls back to the fixed message. */
  function ErrorMessage(error: Option<string>, fallback: string): (m: string)
    ensures error.Some? && error.value != "" ==> m == error.value
    ensures error.None? || error.value == "" ==> m == fallback
    ensures fallback != "" ==> m != ""
  {
    if error.Some? && error.value != "" then error.value else fallback
  }

  /** Whether the API has results beyond the first `page` pages. */
  predicate HasMore(page: nat, total: nat) {
    page * PageSize < total
  }

  /** Normalisation of a decoded search reply fetched for page `page`. */
  function Search(page: nat, data: SearchReply): (r: Result<SearchResult, string>)
    ensures r.Success? <==> data.response == "True"
    ensures r.Success? ==> r.value.movies == data.search && r.value.totalResults == data.totalResults
    ensures r.Success? ==> (r.value.hasMore <==> page * PageSize < data.totalResults)
    ensures r.Failure? ==> r.error == ErrorMessage(data.error, "Search failed") && r.error != ""
  {
    if data.response == "True" then
      Success(SearchResult(data.search, data.totalResults, HasMore(page, data.totalResults)))
    else
      Failure(ErrorMessage(data.error, "Search failed"))
  }

  /** The whole search call: a transfer or decoding failure is rethrown
      with its own message; a decoded reply is normalised. */
  function SearchOutcome(req: SearchRequest, fetched: Fetched<SearchReply>): (r: Result<SearchResult, string>)
    ensures fetched.TransportError? ==> r == Failure(fetched.message)
    ensures fetched.Received? ==> r == Search(req.page, fetched.reply)
  {
    match fetched
    case TransportError(m) => Failure(m)
    case Received(data) => Search(req.page, data)
  }

  /** The detail call's decision: the reply itself on success, otherwise
      its `Error` text or "Movie not found". */
  function GetMovie(data: DetailReply): (r: Result<DetailReply, string>)
    ensures r.Success? <==> data.response == "True"
    ensures r.Success? ==> r.value == data
    ensures r.Failure? ==> r.error == ErrorMessage(data.error, "Movie not found") && r.error != ""
  {
    if data.response == "True" then Success(data) else Failure(ErrorMessage(data.error, "Movie not found"))
  }

  function GetMovieOutcome(fetched: Fetched<DetailReply>): (r: Result<DetailReply, string>)
    ensures fetched.TransportError? ==> r == Failure(fetched.message)
    ensures fetched.Received? ==> r == GetMovie(fetched.reply)
  {
    match fetched
    case TransportError(m) => Failure(m)
    case Received(data) => GetMovie(data)
  }

  // ---------------------------------------------------------------------
  // Pagination lemmas
  // ---------------------------------------------------------------------

  /** A page that ends exactly at the last result reports nothing more. */
  lemma HasMoreBoundary(page: nat, data: SearchReply)
    requires data.response == "True" && page * PageSize == data.totalResults
    ensures Search(page, data).Success? && !Search(page, data).value.hasMore
  {
  }

  /** Once a page reports nothing more, every later page does too; and
      while a later page still has more, so do all earlier ones. */
  lemma HasMoreAntitone(p: nat, q: nat, total: nat)
    requires p <= q
    ensures HasMore(q, total) ==> HasMore(p, total)
    ensures !HasMore(p, total) ==> !HasMore(q, total)
  {
    assert p * PageSize <= q * PageSize;
  }
}
