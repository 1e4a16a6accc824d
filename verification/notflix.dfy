/** The IMDb, TMDB and Radarr helpers of notflixbot/notflix.py: the IMDb id
    taken from a URL, the TMDB "find" response turned into an item, the
    Radarr payload, and `add_from_imdb_url`, which chains them.  The HTTP
    requests are parameters: a TMDB lookup by IMDb id and a Radarr post. */
module Notflix {
  import opened Wrappers
  import opened Json
  import opened Exceptions
  import opened PyStr
  import opened Urls

  // ------------------------------------------------------------- IMDb URL

  /** `get_imdb_id_from_url`: the host must end with "imdb.com" (a suffix
      test, not a domain test); the id is the third `/`-separated field of
      the path, and a path with fewer fields raises IndexError.  A second
      field other than "title" is only logged.  notflixbot/notflixbot.py
      has a module-level copy with the same body, modelled by this function
      too. */
  function GetImdbIdFromUrl(parse: UrlParser, url: string): (r: Result<string, Exc>)
    ensures r.Failure? && !EndsWith(parse(url).netloc, "imdb.com") ==>
              r.error == ImdbError("not an imdb url")
    ensures r.Failure? && EndsWith(parse(url).netloc, "imdb.com") ==> r.error == IndexError
    ensures r.Success? <==>
              EndsWith(parse(url).netloc, "imdb.com") && |Split(parse(url).path, '/')| >= 3
    ensures r.Success? ==> r.value == Split(parse(url).path, '/')[2]
  {
    var u := parse(url);
    if EndsWith(u.netloc, "imdb.com") then
      var parts := Split(u.path, '/');
      if |parts| < 3 then Failure(IndexError) else Success(parts[2])
    else
      Failure(ImdbError("not an imdb url"))
  }

  /** An id never holds a '/'. */
  lemma ImdbIdHasNoSlash(parse: UrlParser, url: string)
    requires GetImdbIdFromUrl(parse, url).Success?
    ensures '/' !in GetImdbIdFromUrl(parse, url).value
  {
    SplitJoin(parse(url).path, '/');
  }

  /** The id of a path `/<a>/<id>` or `/<a>/<id>/<rest>` on any host ending
      in "imdb.com", whatever the first field says. */
  lemma {:induction false} ImdbIdOfPath(parse: UrlParser, url: string, a: string, id: string,
                                        rest: Option<string>)
    requires EndsWith(parse(url).netloc, "imdb.com")
    requires '/' !in a && '/' !in id
    requires parse(url).path == "/" + a + "/" + id + (if rest.Some? then "/" + rest.value else "")
    ensures GetImdbIdFromUrl(parse, url) == Success(id)
  {
    var path := parse(url).path;
    var tail := id + (if rest.Some? then "/" + rest.value else "");
    assert path == "" + ['/'] + (a + ['/'] + tail);
    SplitAtSep("", '/', a + ['/'] + tail);
    SplitAtSep(a, '/', tail);
    if rest.Some? {
      assert tail == id + ['/'] + rest.value;
      SplitAtSep(id, '/', rest.value);
    } else {
      assert tail == id;
      SplitNoSep(id, '/');
    }
  }

  /** A host that merely ends with "imdb.com" is accepted. */
  lemma LookalikeHostAccepted(parse: UrlParser, url: string)
    requires parse(url).netloc == "notimdb.com"
    requires parse(url).path == "/title/tt0111161/"
    ensures GetImdbIdFromUrl(parse, url) == Success("tt0111161")
  {
    assert EndsWith("notimdb.com", "imdb.com");
    ImdbIdOfPath(parse, url, "title", "tt0111161", Some(""));
  }

  /** `https://www.imdb.com/title`: the path `/title` has two fields, so
      the id lookup raises IndexError. */
  lemma TitleOnlyPathShort(parse: UrlParser, url: string)
    requires EndsWith(parse(url).netloc, "imdb.com") && parse(url).path == "/title"
    ensures Split(parse(url).path, '/') == ["", "title"]
    ensures GetImdbIdFromUrl(parse, url) == Failure(IndexError)
  {
    assert "/title" == "" + ['/'] + "title";
    SplitAtSep("", '/', "title");
    SplitNoSep("title", '/');
    SplitNoSep("", '/');
  }

  /** A host that does not end with "imdb.com" is refused, whatever the path. */
  lemma OtherHostRefused(parse: UrlParser, url: string)
    requires !EndsWith(parse(url).netloc, "imdb.com")
    ensures GetImdbIdFromUrl(parse, url) == Failure(ImdbError("not an imdb url"))
  {
  }

  // ------------------------------------------------------------ TMDB find

  /** `vote_average`, a float carried unread. */
  datatype Score = Score(text: string)

  /** One entry of TMDB's `movie_results`, with the fields `parse_tvdb`
      reads; `poster_path` and `backdrop_path` may be null. */
  datatype Movie = Movie(
    posterPath: Option<string>,
    backdropPath: Option<string>,
    releaseDate: string,
    title: string,
    originalTitle: Option<string>,
    id: int,
    voteAverage: Score)

  /** The response of TMDB's find endpoint.  The TV entries are only tested
      for emptiness. */
  datatype FindResponse = FindResponse(movieResults: seq<Movie>, tvResults: seq<JValue>)

  /** The item dict `parse_tvdb` builds (its `t` is always "movie"). */
  datatype Item = Item(
    poster: string,
    backdrop: string,
    releaseDate: string,
    releaseYear: string,
    title: string,
    originalTitle: string,
    tmdbId: int,
    voteAverage: Score,
    imdbId: string)

  const PosterBaseUrl: string := "https://www.themoviedb.org/t/p/w1280"

  /** A path in an f-string: a null path is written "None". */
  function PathText(p: Option<string>): string {
    if p.Some? then p.value else "None"
  }

  /** `release_date.split('-')[0]`. */
  function ReleaseYear(date: string): string {
    Split(date, '-')[0]
  }

  /** The year is the date up to its first '-', or the whole date. */
  lemma ReleaseYearIsPrefix(date: string)
    ensures var y := ReleaseYear(date);
      && |y| <= |date| && y == date[..|y|] && '-' !in y
      && (|y| < |date| ==> date[|y|] == '-')
  {
    SplitHead(date, '-');
  }

  function MovieItem(m: Movie, imdbId: string): (it: Item)
    ensures it.poster == PosterBaseUrl + PathText(m.posterPath)
    ensures it.backdrop == PosterBaseUrl + PathText(m.backdropPath)
    ensures it.releaseDate == m.releaseDate && it.releaseYear == ReleaseYear(m.releaseDate)
    ensures it.title == m.title && it.tmdbId == m.id && it.voteAverage == m.voteAverage
    ensures it.originalTitle == m.originalTitle.GetOr("")
    ensures it.imdbId == imdbId
  {
    Item(PosterBaseUrl + PathText(m.posterPath), PosterBaseUrl + PathText(m.backdropPath),
         m.releaseDate, ReleaseYear(m.releaseDate), m.title, m.originalTitle.GetOr(""),
         m.id, m.voteAverage, imdbId)
  }

  const TvNotSupported: Exc := NotImplementedError("currently this only works for movies")

  /** `TheMovieDB.parse_tvdb` as evidently intended: the first movie when
      there is one, even if there are TV results too (several movies are
      only logged); NotImplementedError for TV results alone; nothing when
      both are empty. */
  function ParseTvdb(j: FindResponse, imdbId: string): (r: Result<Option<Item>, Exc>)
    ensures |j.movieResults| > 0 ==> r == Success(Some(MovieItem(j.movieResults[0], imdbId)))
    ensures |j.movieResults| == 0 && |j.tvResults| > 0 ==> r == Failure(TvNotSupported)
    ensures |j.movieResults| == 0 && |j.tvResults| == 0 ==> r == Success(None)
  {
    if |j.movieResults| > 0 then Success(Some(MovieItem(j.movieResults[0], imdbId)))
    else if |j.tvResults| > 0 then Failure(TvNotSupported)
    else Success(None)
  }

  /** `parse_tvdb` as written: with more than one movie result it first
      calls `logger.warn`, a name loguru's logger does not have, so the
      call raises AttributeError before any movie is taken. */
  function ParseTvdbAsWritten(j: FindResponse, imdbId: string): (r: Result<Option<Item>, Exc>)
    ensures |j.movieResults| <= 1 ==> r == ParseTvdb(j, imdbId)
  {
    if |j.movieResults| > 1 then Failure(AttributeError) else ParseTvdb(j, imdbId)
  }

  /** Two movie results: the code as written raises where the intended one
      returns the first movie. */
  lemma SeveralMoviesRaise(j: FindResponse, imdbId: string)
    requires |j.movieResults| > 1
    ensures ParseTvdbAsWritten(j, imdbId) == Failure(AttributeError)
    ensures ParseTvdb(j, imdbId) == Success(Some(MovieItem(j.movieResults[0], imdbId)))
  {
  }

  /** The parse as written or as evidently intended. */
  function ParseTvdbFrom(j: FindResponse, imdbId: string, asWritten: bool): Result<Option<Item>, Exc> {
    if asWritten then ParseTvdbAsWritten(j, imdbId) else ParseTvdb(j, imdbId)
  }

  /** A TMDB lookup by IMDb id: the response, or the request error that
      `raise_for_status` or the decoding raises. */
  type Finder = string -> Result<FindResponse, Exc>

  /** `search_imdb_id`, over the parse as written or corrected: an empty
      answer becomes TvdbError naming the id. */
  function SearchImdbId(find: Finder, imdbId: string, asWritten: bool): (r: Result<Item, Exc>)
    ensures find(imdbId).Failure? ==> r == Failure(find(imdbId).error)
    ensures find(imdbId).Success? ==>
              var p := ParseTvdbFrom(find(imdbId).value, imdbId, asWritten);
              && (p.Failure? ==> r == Failure(p.error))
              && (p == Success(None) ==>
                    r == Failure(TvdbError("no results in tv or movies for '" + imdbId + "'")))
              && (p.Success? && p.value.Some? ==> r == Success(p.value.value))
  {
    var j :- find(imdbId);
    var info :- ParseTvdbFrom(j, imdbId, asWritten);
    if info.None? then Failure(TvdbError("no results in tv or movies for '" + imdbId + "'"))
    else Success(info.value)
  }

  /** A successful search always names the id it was asked for; as written
      it succeeds only on exactly one movie result. */
  lemma SearchEchoesId(find: Finder, imdbId: string, asWritten: bool)
    requires SearchImdbId(find, imdbId, asWritten).Success?
    ensures SearchImdbId(find, imdbId, asWritten).value.imdbId == imdbId
    ensures SearchImdbId(find, imdbId, asWritten).value == MovieItem(find(imdbId).value.movieResults[0], imdbId)
    ensures asWritten ==> |find(imdbId).value.movieResults| == 1
  {
  }

  /** As written, several movie results make the search raise
      AttributeError, which is no lookup error. */
  lemma SearchSeveralMoviesRaises(find: Finder, imdbId: string)
    requires find(imdbId).Success? && |find(imdbId).value.movieResults| > 1
    ensures SearchImdbId(find, imdbId, true) == Failure(AttributeError)
    ensures SearchImdbId(find, imdbId, false) == Success(MovieItem(find(imdbId).value.movieResults[0], imdbId))
    ensures !IsLookupError(AttributeError)
  {
  }

  // -------------------------------------------------------------- Notflix

  /** The keys `Notflix.__init__` reads from its section, in this order. */
  const NotflixKeys: seq<string> := ["themoviedb_api_key", "radarr_url", "radarr_api_key"]

  /** The values `Notflix.__init__` hands to `TheMovieDB` and `Radarr`. */
  datatype NotflixConf = NotflixConf(tmdbApiKey: JValue, radarrUrl: JValue, radarrApiKey: JValue)

  /** `Notflix(config_dict)`: a missing key raises KeyError, and a section
      that is not a dict raises TypeError at the first lookup. */
  function NotflixInit(section: JValue): (r: Result<NotflixConf, Exc>)
    ensures r.Success? <==> section.JObj? && forall k :: k in NotflixKeys ==> k in section.fields
    ensures r.Failure? ==> r.error == if section.JObj? then KeyError else TypeError
    ensures r.Success? ==> r.value.tmdbApiKey == section.fields[NotflixKeys[0]]
  {
    if !section.JObj? then Failure(TypeError)
    else if NotflixKeys[0] !in section.fields then Failure(KeyError)
    else if NotflixKeys[1] !in section.fields then Failure(KeyError)
    else if NotflixKeys[2] !in section.fields then Failure(KeyError)
    else Success(NotflixConf(section.fields[NotflixKeys[0]], section.fields[NotflixKeys[1]],
                             section.fields[NotflixKeys[2]]))
  }

  /** A section a `Notflix` object can be built from. */
  type NotflixSection = v: JValue | NotflixInit(v).Success?
    witness JObj(map["themoviedb_api_key" := JNull, "radarr_url" := JNull, "radarr_api_key" := JNull])

  // --------------------------------------------------------------- Radarr

  const QualityProfileId: int := 4
  const RootFolderPath: string := "/deadspace/video/movies"

  /** The body `Radarr.add` posts. */
  function RadarrPayload(it: Item): (p: JValue)
    ensures p.JObj? && p.fields.Keys ==
              {"imdbId", "TmdbId", "Title", "QualityProfileId", "RootFolderPath", "monitored", "addOptions"}
    ensures p.fields["imdbId"] == JStr(it.imdbId)
    ensures p.fields["TmdbId"] == JNum(it.tmdbId)
    ensures p.fields["Title"] == JStr(it.title)
    ensures p.fields["QualityProfileId"] == JNum(4)
    ensures p.fields["RootFolderPath"] == JStr("/deadspace/video/movies")
    ensures p.fields["monitored"] == JBool(true)
    ensures p.fields["addOptions"] == JObj(map["searchForMovie" := JBool(true)])
  {
    JObj(map[
      "imdbId" := JStr(it.imdbId),
      "TmdbId" := JNum(it.tmdbId),
      "Title" := JStr(it.title),
      "QualityProfileId" := JNum(QualityProfileId),
      "RootFolderPath" := JStr(RootFolderPath),
      "monitored" := JBool(true),
      "addOptions" := JObj(map["searchForMovie" := JBool(true)])])
  }

  /** Two items with the same ids and title give the same payload: nothing
      else of the item is sent. */
  lemma PayloadDependsOnIdsAndTitle(a: Item, b: Item)
    requires a.imdbId == b.imdbId && a.tmdbId == b.tmdbId && a.title == b.title
    ensures RadarrPayload(a) == RadarrPayload(b)
  {
  }

  /** The Radarr post: the HTTP status, or the request error. */
  type Poster = JValue -> Result<int, Exc>

  // ----------------------------------------------------------------- add

  /** The `except` of `add_from_imdb_url`: the three lookup errors are
      wrapped in NotflixbotError, anything else passes through. */
  function WrapLookup(e: Exc): (w: Exc)
    ensures IsLookupError(e) ==> w == NotflixbotError(e)
    ensures !IsLookupError(e) ==> w == e
  {
    if IsLookupError(e) then NotflixbotError(e) else e
  }

  /** The body of the `try` in `add_from_imdb_url`: whether Radarr
      answered 201, and the item. */
  function AddSteps(parse: UrlParser, find: Finder, post: Poster, url: string, asWritten: bool)
    : (r: Result<(bool, Item), Exc>)
    ensures r.Success? ==>
              && GetImdbIdFromUrl(parse, url).Success?
              && var id := GetImdbIdFromUrl(parse, url).value;
              && SearchImdbId(find, id, asWritten) == Success(r.value.1)
              && post(RadarrPayload(r.value.1)).Success?
              && (r.value.0 <==> post(RadarrPayload(r.value.1)).value == 201)
    ensures GetImdbIdFromUrl(parse, url).Failure? ==> r == Failure(GetImdbIdFromUrl(parse, url).error)
  {
    var id :- GetImdbIdFromUrl(parse, url);
    var item :- SearchImdbId(find, id, asWritten);
    var status :- post(RadarrPayload(item));
    Success((status == 201, item))
  }

  /** `Notflix.add_from_imdb_url`: the steps, with a lookup error wrapped. */
  function AddFromImdbUrl(parse: UrlParser, find: Finder, post: Poster, url: string, asWritten: bool)
    : (r: Result<(bool, Item), Exc>)
    ensures AddSteps(parse, find, post, url, asWritten).Success? ==> r == AddSteps(parse, find, post, url, asWritten)
    ensures AddSteps(parse, find, post, url, asWritten).Failure? ==>
              r == Failure(WrapLookup(AddSteps(parse, find, post, url, asWritten).error))
  {
    match AddSteps(parse, find, post, url, asWritten)
    case Success(v) => Success(v)
    case Failure(e) => Failure(WrapLookup(e))
  }

  /** `added` is exactly "Radarr answered 201" for the item TMDB found, and
      no lookup error reaches the caller unwrapped. */
  lemma AddOutcome(parse: UrlParser, find: Finder, post: Poster, url: string, asWritten: bool)
    ensures var r := AddFromImdbUrl(parse, find, post, url, asWritten);
      && (r.Failure? ==> !IsLookupError(r.error))
      && (r.Success? ==> r.value.1.imdbId == GetImdbIdFromUrl(parse, url).value)
      && (r.Success? ==> (r.value.0 <==> post(RadarrPayload(r.value.1)) == Success(201)))
  {
    var r := AddFromImdbUrl(parse, find, post, url, asWritten);
    if r.Success? {
      SearchEchoesId(find, GetImdbIdFromUrl(parse, url).value, asWritten);
    }
  }

  /** As written, an IMDb URL whose lookup finds several movies escapes as
      an unwrapped AttributeError, before anything is posted to Radarr. */
  lemma AddSeveralMoviesEscapes(parse: UrlParser, find: Finder, post: Poster, url: string)
    requires GetImdbIdFromUrl(parse, url).Success?
    requires var j := find(GetImdbIdFromUrl(parse, url).value); j.Success? && |j.value.movieResults| > 1
    ensures AddFromImdbUrl(parse, find, post, url, true) == Failure(AttributeError)
  {
    SearchSeveralMoviesRaises(find, GetImdbIdFromUrl(parse, url).value);
  }

  /** A URL off IMDb ends the add before any request, as a wrapped ImdbError. */
  lemma AddRejectsOtherHost(parse: UrlParser, find: Finder, post: Poster, url: string, asWritten: bool)
    requires !EndsWith(parse(url).netloc, "imdb.com")
    ensures AddFromImdbUrl(parse, find, post, url, asWritten) ==
              Failure(NotflixbotError(ImdbError("not an imdb url")))
  {
  }

  /** A path of fewer than three `/`-fields on an IMDb host escapes as
      IndexError, unwrapped. */
  lemma AddShortPathEscapes(parse: UrlParser, find: Finder, post: Poster, url: string, asWritten: bool)
    requires EndsWith(parse(url).netloc, "imdb.com") && |Split(parse(url).path, '/')| < 3
    ensures AddFromImdbUrl(parse, find, post, url, asWritten) == Failure(IndexError)
  {
  }
}
