/** notflixbot/notflixbot.py: the bot's own TMDB parser, whose item carries
    the TMDB id as a string and no IMDb id, the `NotflixMatrixClient`
    handler table, which rebinds `add`, and its `_handle_add`, which turns
    every outcome of an add command into a reply.  Its module-level
    `get_imdb_id_from_url` has the same body as the one in notflix.py and is
    modelled by `Notflix.GetImdbIdFromUrl`. */
module Notflixbot {
  import opened Wrappers
  import opened Json
  import opened Exceptions
  import opened PyStr
  import opened Urls
  import opened Matrix
  import N = Notflix

  // ------------------------------------------------------------ TMDB find

  /** The item dict of this module's `parse_tvdb`. */
  datatype BotItem = BotItem(
    poster: string,
    backdrop: string,
    releaseDate: string,
    releaseYear: string,
    title: string,
    originalTitle: string,
    tmdbId: string,
    voteAverage: N.Score)

  function MovieItem(m: N.Movie): (it: BotItem)
    ensures it.poster == N.PosterBaseUrl + N.PathText(m.posterPath)
    ensures it.releaseYear == N.ReleaseYear(m.releaseDate)
    ensures it.title == m.title && it.tmdbId == IntToStr(m.id)
  {
    BotItem(N.PosterBaseUrl + N.PathText(m.posterPath), N.PosterBaseUrl + N.PathText(m.backdropPath),
            m.releaseDate, N.ReleaseYear(m.releaseDate), m.title, m.originalTitle.GetOr(""),
            IntToStr(m.id), m.voteAverage)
  }

  /** `TheMovieDB.parse_tvdb` of this module, as evidently intended: the
      warning about several movies is logged and the first one is used. */
  function ParseTvdb(j: N.FindResponse): Result<Option<BotItem>, Exc> {
    if |j.movieResults| > 0 then Success(Some(MovieItem(j.movieResults[0])))
    else if |j.tvResults| > 0 then Failure(N.TvNotSupported)
    else Success(None)
  }

  /** This module's `parse_tvdb` as written: the same `logger.warn` call as
      in notflix.py raises AttributeError when there are several movies. */
  function ParseTvdbAsWritten(j: N.FindResponse): (r: Result<Option<BotItem>, Exc>)
    ensures |j.movieResults| <= 1 ==> r == ParseTvdb(j)
  {
    if |j.movieResults| > 1 then Failure(AttributeError) else ParseTvdb(j)
  }

  /** Two movie results: as written the parse raises; as intended it gives
      the first movie, whatever TV results come with it. */
  lemma SeveralMoviesRaise(j: N.FindResponse)
    requires |j.movieResults| > 1
    ensures ParseTvdbAsWritten(j) == Failure(AttributeError)
    ensures ParseTvdb(j) == Success(Some(MovieItem(j.movieResults[0])))
  {
  }

  /** The parse as written or as evidently intended. */
  function ParseTvdbFrom(j: N.FindResponse, asWritten: bool): Result<Option<BotItem>, Exc> {
    if asWritten then ParseTvdbAsWritten(j) else ParseTvdb(j)
  }

  /** The same item as `Notflix.ParseTvdb` gives, field for field, except
      that the TMDB id is its decimal text and there is no IMDb id; the
      same precedence and the same errors, as written and corrected. */
  lemma ParseTvdbAgrees(j: N.FindResponse, imdbId: string, asWritten: bool)
    ensures var r, s := ParseTvdbFrom(j, asWritten), N.ParseTvdbFrom(j, imdbId, asWritten);
      && (r.Failure? <==> s.Failure?)
      && (r.Failure? ==> r.error == s.error)
      && (r.Failure? ==> r.error == N.TvNotSupported || (asWritten && r.error == AttributeError))
      && (r.Success? ==> (r.value.None? <==> s.value.None?))
      && (r.Success? && r.value.Some? ==>
            var a, b := r.value.value, s.value.value;
            && a.poster == b.poster && a.backdrop == b.backdrop
            && a.releaseDate == b.releaseDate && a.releaseYear == b.releaseYear
            && a.title == b.title && a.originalTitle == b.originalTitle
            && a.voteAverage == b.voteAverage
            && a.tmdbId == IntToStr(b.tmdbId))
  {
  }

  /** A non-negative TMDB id survives the trip through its text. */
  lemma TmdbIdText(m: N.Movie)
    requires m.id >= 0
    ensures DecimalValue(MovieItem(m).tmdbId) == m.id
  {
    NatToStrRoundTrip(m.id);
  }

  /** This module's `search_imdb_id`, over the parse as written or
      corrected. */
  function SearchImdbId(find: N.Finder, imdbId: string, asWritten: bool): (r: Result<BotItem, Exc>)
    ensures find(imdbId).Success? && ParseTvdbFrom(find(imdbId).value, asWritten) == Success(None) ==>
              r == Failure(TvdbError("no results in tv or movies for '" + imdbId + "'"))
    ensures r.Success? ==>
              (find(imdbId).Success? && |find(imdbId).value.movieResults| > 0 &&
               r.value == MovieItem(find(imdbId).value.movieResults[0]))
    ensures r.Success? && asWritten ==> |find(imdbId).value.movieResults| == 1
    ensures r.Failure? ==>
              || (find(imdbId).Failure? && r.error == find(imdbId).error)
              || IsLookupError(r.error)
              || (asWritten && r.error == AttributeError)
  {
    var j :- find(imdbId);
    var info :- ParseTvdbFrom(j, asWritten);
    if info.None? then Failure(TvdbError("no results in tv or movies for '" + imdbId + "'"))
    else Success(info.value)
  }

  // -------------------------------------------------------- handler table

  /** The table of a `NotflixMatrixClient`. */
  const NotflixHandlers: map<string, Handler> := BaseHandlers["add" := NotflixAdd]

  /** The same four names as the base table; only `add` points elsewhere. */
  lemma NotflixHandlersRebindAdd()
    ensures NotflixHandlers.Keys == BaseHandlers.Keys == {"ruok", "whoami", "key_sync", "add"}
    ensures forall k :: k in BaseHandlers && k != "add" ==> NotflixHandlers[k] == BaseHandlers[k]
    ensures NotflixHandlers["add"] == NotflixAdd && BaseHandlers["add"] == BaseAdd
  {
  }

  /** `NotflixMatrixClient._cmd_handlers`: the base entries, then `add`. */
  method InstallNotflixHandlers(c: Client)
    modifies c
    ensures c.cmdHandlers == old(c.cmdHandlers)["ruok" := Ruok]["whoami" := Whoami]
                               ["key_sync" := KeySync]["add" := BaseAdd]["add" := NotflixAdd]
    ensures c.devices == old(c.devices) && c.outbox == old(c.outbox)
  {
    c.InstallHandlers();
    c.cmdHandlers := c.cmdHandlers["add" := NotflixAdd];
  }

  /** `NotflixMatrixClient(config, ctx)`: `__init__`'s call of
      `_cmd_handlers` runs the override, once; `Notflix(config.notflixbot)`
      raises as in `NewClient`. */
  method NewNotflixClient(botId: string, config: Configuration.ConfigRecord, router: RouterConfig,
                          socket: Inproc.PairSocket, devices: DeviceStore)
    returns (r: Result<Client, Exc>)
    ensures r.Success? <==> N.NotflixInit(config.notflixbot).Success?
    ensures r.Failure? ==> r.error == N.NotflixInit(config.notflixbot).error
    ensures r.Success? ==> fresh(r.value) && r.value.cmdHandlers == NotflixHandlers
    ensures r.Success? ==> r.value.notflixbot == config.notflixbot && r.value.botId == botId
    ensures r.Success? ==> r.value.router == router && r.value.devices == devices && r.value.outbox == []
    ensures r.Success? ==> r.value.creds == config.creds && r.value.configUserId == config.userId
    ensures r.Success? ==> r.value.autotrust == config.autotrust && r.value.socket == socket
  {
    if N.NotflixInit(config.notflixbot).Failure? {
      return Failure(N.NotflixInit(config.notflixbot).error);
    }
    var c := new Client(botId, config.userId, config.autotrust, router, config.creds, socket, devices,
                        config.notflixbot);
    InstallNotflixHandlers(c);
    assert c.cmdHandlers == NotflixHandlers;
    r := Success(c);
  }

  // --------------------------------------------------------------- add

  /** `f"invalid command: '{cmd}'"`, with the word list in Python's list
      notation. */
  function InvalidCommand(cmd: seq<string>): string {
    "invalid command: '" + ListRepr(cmd) + "'"
  }

  function ErrorReply(e: Exc): string
    requires IsLookupError(e)
  {
    "error: " + Exceptions.Message(e)
  }

  function ItemReply(info: BotItem): string {
    info.title + " (" + info.releaseYear + ") | [poster](" + info.poster + ")"
  }

  /** A TMDB client built from an API key. */
  type KeyedFinder = JValue -> N.Finder

  /** `self.config.notflixbot['themoviedb_api_key']`. */
  function ApiKey(notflixbot: JValue): (r: Result<JValue, Exc>)
    ensures r.Success? <==> notflixbot.JObj? && "themoviedb_api_key" in notflixbot.fields
    ensures r.Failure? ==> r.error == if notflixbot.JObj? then KeyError else TypeError
  {
    if !notflixbot.JObj? then Failure(TypeError)
    else if "themoviedb_api_key" !in notflixbot.fields then Failure(KeyError)
    else Success(notflixbot.fields["themoviedb_api_key"])
  }

  /** The `except` clauses of `_handle_add`: an IndexError gives the
      invalid-command reply, a lookup error its message, and anything else
      escapes. */
  function Caught(e: Exc, cmd: seq<string>): (r: Result<string, Exc>)
    ensures r.Failure? <==> !IsLookupError(e) && e != IndexError
    ensures r.Failure? ==> r.error == e
    ensures e == IndexError ==> r == Success(InvalidCommand(cmd))
    ensures IsLookupError(e) ==> r == Success(ErrorReply(e))
  {
    if e == IndexError then Success(InvalidCommand(cmd))
    else if IsLookupError(e) then Success(ErrorReply(e))
    else Failure(e)
  }

  /** `_handle_add`: the text it sends, or the exception that escapes it.
      A missing URL word and an IndexError from a short IMDb path both give
      the invalid-command reply; a lookup error gives its message. */
  function AddReply(body: string, notflixbot: JValue, parse: UrlParser, find: KeyedFinder, asWritten: bool)
    : (r: Result<string, Exc>)
    ensures r.Failure? ==> !IsLookupError(r.error) && r.error != IndexError
    ensures |CommandWords(body)| >= 2 ==> r == UrlReply(CommandWords(body), notflixbot, parse, find, asWritten)
  {
    var cmd := CommandWords(body);
    if |cmd| < 2 then Success(InvalidCommand(cmd)) else UrlReply(cmd, notflixbot, parse, find, asWritten)
  }

  /** `_handle_add` once the command has a second word. */
  function UrlReply(cmd: seq<string>, notflixbot: JValue, parse: UrlParser, find: KeyedFinder, asWritten: bool)
    : (r: Result<string, Exc>)
    requires |cmd| >= 2
    ensures r.Failure? ==> !IsLookupError(r.error) && r.error != IndexError
    ensures N.GetImdbIdFromUrl(parse, Strip(cmd[1])).Failure? ==>
              r == Caught(N.GetImdbIdFromUrl(parse, Strip(cmd[1])).error, cmd)
  {
    match N.GetImdbIdFromUrl(parse, Strip(cmd[1]))
    case Failure(e) => Caught(e, cmd)
    case Success(imdbId) =>
      match ApiKey(notflixbot)
      case Failure(e) => Caught(e, cmd)
      case Success(key) => SearchReply(find(key), imdbId, cmd, asWritten)
  }

  /** The part of `_handle_add` after the id is known: the item line, or
      the search's exception through the `except` clauses. */
  function SearchReply(find: N.Finder, imdbId: string, cmd: seq<string>, asWritten: bool)
    : (r: Result<string, Exc>)
    ensures r.Failure? ==> !IsLookupError(r.error) && r.error != IndexError
    ensures r.Failure? ==>
              || (find(imdbId).Failure? && r.error == find(imdbId).error)
              || (asWritten && r.error == AttributeError)
  {
    match SearchImdbId(find, imdbId, asWritten)
    case Failure(e) => Caught(e, cmd)
    case Success(info) => Success(ItemReply(info))
  }

  /** A movie from TMDB is answered with its title, year and poster; as
      written only when it is the only movie. */
  lemma SearchReplyMovie(find: N.Finder, imdbId: string, cmd: seq<string>, asWritten: bool)
    requires find(imdbId).Success? && |find(imdbId).value.movieResults| > 0
    requires asWritten ==> |find(imdbId).value.movieResults| == 1
    ensures var m := find(imdbId).value.movieResults[0];
      SearchReply(find, imdbId, cmd, asWritten) ==
        Success(m.title + " (" + N.ReleaseYear(m.releaseDate) + ") | [poster](" +
                (N.PosterBaseUrl + N.PathText(m.posterPath)) + ")")
  {
    var m := find(imdbId).value.movieResults[0];
    assert ParseTvdbFrom(find(imdbId).value, asWritten) == Success(Some(MovieItem(m)));
    assert SearchImdbId(find, imdbId, asWritten) == Success(MovieItem(m));
  }

  /** Several movies: as written the search raises AttributeError, which
      no `except` of `_handle_add` catches, so nothing is answered; as
      intended the first movie is answered. */
  lemma SearchReplySeveralMovies(find: N.Finder, imdbId: string, cmd: seq<string>)
    requires find(imdbId).Success? && |find(imdbId).value.movieResults| > 1
    ensures SearchReply(find, imdbId, cmd, true) == Failure(AttributeError)
    ensures SearchReply(find, imdbId, cmd, false) ==
              Success(ItemReply(MovieItem(find(imdbId).value.movieResults[0])))
  {
    SeveralMoviesRaise(find(imdbId).value);
    assert SearchImdbId(find, imdbId, true) == Failure(AttributeError);
  }

  /** The reply text for TV results. */
  lemma TvReplyText()
    ensures ErrorReply(N.TvNotSupported) == "error: currently this only works for movies"
  {
    assert Exceptions.Message(N.TvNotSupported) == "currently this only works for movies";
  }

  /** TV results alone are answered with NotImplementedError's message. */
  lemma SearchReplyTv(find: N.Finder, imdbId: string, cmd: seq<string>, asWritten: bool)
    requires find(imdbId).Success?
    requires |find(imdbId).value.movieResults| == 0 && |find(imdbId).value.tvResults| > 0
    ensures SearchReply(find, imdbId, cmd, asWritten) == Success("error: currently this only works for movies")
  {
    assert ParseTvdbFrom(find(imdbId).value, asWritten) == Failure(N.TvNotSupported);
    assert SearchImdbId(find, imdbId, asWritten) == Failure(N.TvNotSupported);
    TvReplyText();
  }

  /** No results at all are answered with TvdbError's message, naming the id. */
  lemma SearchReplyNothing(find: N.Finder, imdbId: string, cmd: seq<string>, asWritten: bool)
    requires find(imdbId).Success?
    requires |find(imdbId).value.movieResults| == 0 && |find(imdbId).value.tvResults| == 0
    ensures SearchReply(find, imdbId, cmd, asWritten) ==
              Success("error: no results in tv or movies for '" + imdbId + "'")
  {
    var e := TvdbError("no results in tv or movies for '" + imdbId + "'");
    assert ErrorReply(e) == "error: no results in tv or movies for '" + imdbId + "'";
  }

  /** A failed request is not answered: it escapes the handler, unless it
      is one of the exceptions the handler catches. */
  lemma SearchReplyRequestFails(find: N.Finder, imdbId: string, cmd: seq<string>, asWritten: bool)
    requires find(imdbId).Failure? && !IsLookupError(find(imdbId).error) && find(imdbId).error != IndexError
    ensures SearchReply(find, imdbId, cmd, asWritten) == Failure(find(imdbId).error)
  {
  }

  /** A body without a second word gets the invalid-command reply naming
      the single word. */
  lemma {:induction false} AddWithoutUrl(body: string, notflixbot: JValue, parse: UrlParser,
                                          find: KeyedFinder, asWritten: bool)
    requires ' ' !in Strip(body)
    ensures AddReply(body, notflixbot, parse, find, asWritten) == Success(InvalidCommand([Strip(body)]))
  {
    SplitNoSep(Strip(body), ' ');
  }

  /** A body with a space in it, once stripped, has a URL word. */
  lemma {:induction false} AddWithUrl(body: string, notflixbot: JValue, parse: UrlParser,
                                       find: KeyedFinder, asWritten: bool)
    requires ' ' in Strip(body)
    ensures |CommandWords(body)| >= 2
    ensures AddReply(body, notflixbot, parse, find, asWritten) ==
              UrlReply(CommandWords(body), notflixbot, parse, find, asWritten)
  {
    SplitHasSecondIff(Strip(body), ' ');
  }

  /** Python's text of the word list `['add']`. */
  lemma BareAddText()
    ensures InvalidCommand(["add"]) == "invalid command: '['add']'"
  {
    assert Plain("add");
    ReprPlain("add");
    assert ReprItems(["add"]) == Repr("add");
    assert "invalid command: '" + "['add']" + "'" == "invalid command: '['add']'";
  }

  /** `add` alone, with or without surrounding whitespace: the reply shows
      the word list as Python prints it. */
  lemma BareAddCommand(body: string, notflixbot: JValue, parse: UrlParser, find: KeyedFinder, asWritten: bool)
    requires Strip(body) == "add"
    ensures AddReply(body, notflixbot, parse, find, asWritten) == Success("invalid command: '['add']'")
  {
    assert ' ' !in Strip(body);
    AddWithoutUrl(body, notflixbot, parse, find, asWritten);
    BareAddText();
  }

  /** A URL off IMDb is answered with ImdbError's message; no TMDB request
      is made and the configuration is not read. */
  lemma AddOtherHost(cmd: seq<string>, notflixbot: JValue, parse: UrlParser, find: KeyedFinder, asWritten: bool)
    requires |cmd| >= 2
    requires !EndsWith(parse(Strip(cmd[1])).netloc, "imdb.com")
    ensures UrlReply(cmd, notflixbot, parse, find, asWritten) == Success("error: not an imdb url")
  {
    assert ErrorReply(ImdbError("not an imdb url")) == "error: not an imdb url";
  }

  /** An IMDb link whose path has fewer than three fields is answered like
      a missing URL: the IndexError is caught. */
  lemma AddShortPath(cmd: seq<string>, notflixbot: JValue, parse: UrlParser, find: KeyedFinder, asWritten: bool)
    requires |cmd| >= 2
    requires EndsWith(parse(Strip(cmd[1])).netloc, "imdb.com")
    requires |Split(parse(Strip(cmd[1])).path, '/')| < 3
    ensures UrlReply(cmd, notflixbot, parse, find, asWritten) == Success(InvalidCommand(cmd))
  {
  }

  /** With an IMDb id and an API key the reply is the search's. */
  lemma AddReachesSearch(cmd: seq<string>, notflixbot: JValue, parse: UrlParser, find: KeyedFinder, asWritten: bool)
    requires |cmd| >= 2
    requires N.GetImdbIdFromUrl(parse, Strip(cmd[1])).Success?
    requires ApiKey(notflixbot).Success?
    ensures UrlReply(cmd, notflixbot, parse, find, asWritten) ==
              SearchReply(find(ApiKey(notflixbot).value), N.GetImdbIdFromUrl(parse, Strip(cmd[1])).value, cmd, asWritten)
  {
  }

  /** A client exists only with a TMDB key in its `notflixbot` section, so
      an add with an IMDb id always reaches the search, keyed with it. */
  lemma ConfiguredAddSearches(cmd: seq<string>, section: N.NotflixSection, parse: UrlParser,
                              find: KeyedFinder, asWritten: bool)
    requires |cmd| >= 2
    requires N.GetImdbIdFromUrl(parse, Strip(cmd[1])).Success?
    ensures UrlReply(cmd, section, parse, find, asWritten) ==
              SearchReply(find(section.fields["themoviedb_api_key"]), N.GetImdbIdFromUrl(parse, Strip(cmd[1])).value,
                          cmd, asWritten)
  {
    assert ApiKey(section) == Success(section.fields["themoviedb_api_key"]);
  }

  /** As written, an add whose IMDb id finds several movies with the
      configured key raises AttributeError out of `_handle_add`, and the
      router's `except KeyError` lets it through; as intended the first
      movie is answered. */
  lemma AddSeveralMoviesRaises(body: string, section: N.NotflixSection, parse: UrlParser, find: KeyedFinder)
    requires ' ' in Strip(body)
    requires var cmd := CommandWords(body);
      |cmd| >= 2 && N.GetImdbIdFromUrl(parse, Strip(cmd[1])).Success?
    requires var id := N.GetImdbIdFromUrl(parse, Strip(CommandWords(body)[1])).value;
      var j := find(section.fields["themoviedb_api_key"])(id);
      j.Success? && |j.value.movieResults| > 1
    ensures AddReply(body, section, parse, find, true) == Failure(AttributeError)
    ensures HandlerOutcome(Some(AttributeError)) == Some(AttributeError)
    ensures var id := N.GetImdbIdFromUrl(parse, Strip(CommandWords(body)[1])).value;
      var j := find(section.fields["themoviedb_api_key"])(id);
      AddReply(body, section, parse, find, false) == Success(ItemReply(MovieItem(j.value.movieResults[0])))
  {
    var cmd := CommandWords(body);
    var id := N.GetImdbIdFromUrl(parse, Strip(cmd[1])).value;
    var f := find(section.fields["themoviedb_api_key"]);
    AddWithUrl(body, section, parse, find, true);
    AddWithUrl(body, section, parse, find, false);
    ConfiguredAddSearches(cmd, section, parse, find, true);
    ConfiguredAddSearches(cmd, section, parse, find, false);
    SearchReplySeveralMovies(f, id, cmd);
  }

  /** `NotflixMatrixClient._handle_add`, as written or corrected: the reply
      goes to the event's room, or the exception escapes and nothing is sent.
      A `send_msg` that raises, in the `try` or in an `except`, escapes too. */
  method HandleAdd(c: Client, ev: MessageEvent, parse: UrlParser, find: KeyedFinder,
                   resolve: Resolver, asWritten: bool)
    returns (fault: Option<Exc>)
    modifies c
    ensures var r := AddReply(ev.body, c.notflixbot, parse, find, asWritten);
      && (r.Success? ==> (c.outbox, fault) == Deliver(old(c.outbox), ev.roomId, r.value, resolve))
      && (r.Failure? ==> fault == Some(r.error) && c.outbox == old(c.outbox))
    ensures c.devices == old(c.devices) && c.cmdHandlers == old(c.cmdHandlers)
  {
    var r := AddReply(ev.body, c.notflixbot, parse, find, asWritten);
    match r {
      case Success(text) =>
        fault := c.SendMsg(ev.roomId, text, resolve);
      case Failure(e) =>
        fault := Some(e);
    }
  }

  /** `_cb_message` on a `NotflixMatrixClient`: the client's own replies as
      in `OnMessage`, and for `add` the `_handle_add` run, a KeyError from
      which the router logs instead of raising. */
  method OnNotflixMessage(c: Client, ev: MessageEvent, parse: UrlParser, find: KeyedFinder,
                          resolve: Resolver, compound: JValue -> string, asWritten: bool)
    returns (d: Dispatch, fault: Option<Exc>)
    modifies c
    ensures d == RouteMessage(c.botId, c.router, old(c.cmdHandlers), ev)
    ensures d == Invoke(NotflixAdd) ==>
              var r := AddReply(ev.body, c.notflixbot, parse, find, asWritten);
              && (r.Success? ==>
                    var (box, f) := Deliver(old(c.outbox), ev.roomId, r.value, resolve);
                    c.outbox == box && fault == HandlerOutcome(f))
              && (r.Failure? ==> fault == HandlerOutcome(Some(r.error)) && c.outbox == old(c.outbox))
    ensures d != Invoke(NotflixAdd) ==>
              var r := BuiltinReply(d, ev.sender, c.creds, compound);
              && (r.Failure? ==> fault == Some(r.error) && c.outbox == old(c.outbox))
              && (r.Success? && r.value.None? ==> fault == None && c.outbox == old(c.outbox))
              && (r.Success? && r.value.Some? ==>
                    (c.outbox, fault) == Deliver(old(c.outbox), ev.roomId, r.value.value, resolve))
    ensures c.devices == old(c.devices) && c.cmdHandlers == old(c.cmdHandlers)
  {
    d, fault := c.OnMessage(ev, resolve, compound);
    if d == Invoke(NotflixAdd) {
      var f := HandleAdd(c, ev, parse, find, resolve, asWritten);
      fault := HandlerOutcome(f);
    }
  }
}
