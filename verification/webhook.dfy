/** The webhook server of notflixbot/webhook.py: token validation, the
    error-converting middleware with its access-log level, the two posting
    handlers and the liveness handler, and `_send`, which puts one message on
    the PAIR socket for the chat client. */
module Webhook {
  import opened Wrappers
  import opened Json
  import opened Exceptions
  import opened Inproc

  datatype Level = Info | Warning | Error

  /** `_logger`'s level: `range(500, 600)` is error, `range(400, 500)` is
      warning, anything else info. */
  function LogLevel(status: int): (l: Level)
    ensures l == Error <==> 500 <= status < 600
    ensures l == Warning <==> 400 <= status < 500
    ensures l == Info <==> !(400 <= status < 600)
  {
    if 500 <= status < 600 then Error
    else if 400 <= status < 500 then Warning
    else Info
  }

  /** An aiohttp `HTTPException`. */
  datatype HttpException = HttpException(status: int, reason: string)

  const Forbidden: HttpException := HttpException(403, "Forbidden")
  const NotFound: HttpException := HttpException(404, "Not Found")
  const MethodNotAllowed: HttpException := HttpException(405, "Method Not Allowed")

  /** What a handler raises: an `HTTPException`, which the middleware
      converts, or anything else, which it lets through. */
  datatype Raised = Http(ex: HttpException) | Uncaught(exc: Exc)

  /** A handler either returns `json_response(body)` or raises. */
  datatype HandlerResult = Returned(body: JValue) | Raise(raised: Raised)

  /** What a handler did: its result and the messages it put on the socket. */
  datatype Handled = Handled(result: HandlerResult, sent: seq<OutMsg>)

  /** What the middleware hands to aiohttp: a response with its HTTP status
      and the level it was logged at, or an exception that aiohttp itself
      turns into a 500 without this server logging it. */
  datatype Served = Served(status: int, body: JValue, logged: Level) | Escaped(exc: Exc)

  /** `_validate_token`: the room of a known token, HTTPForbidden for any
      other hashable token; a list or dict token cannot even be looked up. */
  function ValidateToken(tokens: map<string, string>, token: JValue): (r: Result<string, Raised>)
    ensures r.Success? <==> token.JStr? && token.s in tokens
    ensures r.Success? ==> r.value == tokens[token.s]
    ensures r.Failure? && Hashable(token) ==> r.error == Http(Forbidden)
  {
    if token.JStr? && token.s in tokens then Success(tokens[token.s])
    else if Hashable(token) then Failure(Http(Forbidden))
    else Failure(Uncaught(TypeError))
  }

  /** The error body `{'reason': ..., 'status': ...}`. */
  function ErrorBody(ex: HttpException): JValue {
    JObj(map["reason" := JStr(ex.reason), "status" := JNum(ex.status)])
  }

  /** `_middleware`: a normal return is logged as 200; an HTTPException is
      logged with its own status and answered by `json_response` with the
      error body, whose HTTP status is json_response's default 200; anything
      else escapes. */
  function Middleware(h: HandlerResult): (s: Served)
    ensures h.Returned? ==> s == Served(200, h.body, Info)
    ensures h.Raise? && h.raised.Http? ==>
              s == Served(200, ErrorBody(h.raised.ex), LogLevel(h.raised.ex.status))
    ensures h.Raise? && h.raised.Uncaught? ==> s == Escaped(h.raised.exc)
  {
    match h
    case Returned(body) => Served(200, body, LogLevel(200))
    case Raise(Http(ex)) => Served(200, ErrorBody(ex), LogLevel(ex.status))
    case Raise(Uncaught(exc)) => Escaped(exc)
  }

  /** The request body as `await request.json()` sees it. */
  datatype Body = Malformed | Json(value: JValue)

  /** The message `_send` builds: the token's room and the payload's `text`,
      or "" when the payload has none.  `w_data.get` on a payload that is
      not a dict raises AttributeError. */
  function OutMessage(wData: JValue, room: string): (r: Result<OutMsg, Raised>)
    ensures r.Success? <==> wData.JObj?
    ensures r.Success? ==> r.value.room == room
    ensures r.Success? && "text" in wData.fields ==> r.value.msg == wData.fields["text"]
    ensures r.Success? && "text" !in wData.fields ==> r.value.msg == JStr("")
  {
    if wData.JObj? then
      Success(OutMsg(room, if "text" in wData.fields then wData.fields["text"] else JStr("")))
    else Failure(Uncaught(AttributeError))
  }

  /** `_handle_webhook_json_token`: read the body, take `token` from it,
      validate, send, answer "ok". */
  function JsonTokenFlow(tokens: map<string, string>, body: Body): Handled {
    match body
    case Malformed => Handled(Raise(Uncaught(JsonDecodeError)), [])
    case Json(w) =>
      if !w.JObj? then Handled(Raise(Uncaught(TypeError)), [])
      else if "token" !in w.fields then Handled(Raise(Uncaught(KeyError)), [])
      else match ValidateToken(tokens, w.fields["token"])
        case Failure(e) => Handled(Raise(e), [])
        case Success(room) =>
          match OutMessage(w, room)
          case Failure(e) => Handled(Raise(e), [])
          case Success(m) => Handled(Returned(JStr("ok")), [m])
  }

  /** `_handle_webhook_url_token`: validate the token from the path first,
      then read the body, send, answer "ok". */
  function UrlTokenFlow(tokens: map<string, string>, token: string, body: Body): Handled {
    match ValidateToken(tokens, JStr(token))
    case Failure(e) => Handled(Raise(e), [])
    case Success(room) =>
      match body
      case Malformed => Handled(Raise(Uncaught(JsonDecodeError)), [])
      case Json(w) =>
        match OutMessage(w, room)
        case Failure(e) => Handled(Raise(e), [])
        case Success(m) => Handled(Returned(JStr("ok")), [m])
  }

  /** `_handle_ruok`. */
  const RuokBody: JValue := JObj(map["ruok" := JStr("iamok")])

  /** The routes `_setup_routes` installs: POST `/_webhook` and `/_webhook/`
      take the token from the body, POST `/_webhook/{token}` from the path,
      GET `/_webhook/ruok` answers the liveness check.  Any other request
      matches no route: aiohttp's router raises HTTPMethodNotAllowed when the
      path belongs to a route with another method, HTTPNotFound otherwise. */
  datatype Route =
    | PostBodyToken(body: Body)
    | PostPathToken(token: string, body: Body)
    | GetRuok
    | NoRoute(pathKnown: bool)

  function RouteFlow(tokens: map<string, string>, route: Route): Handled {
    match route
    case PostBodyToken(body) => JsonTokenFlow(tokens, body)
    case PostPathToken(token, body) => UrlTokenFlow(tokens, token, body)
    case GetRuok => Handled(Returned(RuokBody), [])
    case NoRoute(pathKnown) => Handled(Raise(Http(if pathKnown then MethodNotAllowed else NotFound)), [])
  }

  /** A request no route matches goes through the middleware like any
      HTTPException: HTTP status 200, the 404 or 405 only in the body,
      logged at warning, and nothing sent. */
  lemma UnroutedRequest(tokens: map<string, string>, pathKnown: bool)
    ensures RouteFlow(tokens, NoRoute(pathKnown)).sent == []
    ensures var code := if pathKnown then 405 else 404;
      var reason := if pathKnown then "Method Not Allowed" else "Not Found";
      Middleware(RouteFlow(tokens, NoRoute(pathKnown)).result) ==
        Served(200, JObj(map["reason" := JStr(reason), "status" := JNum(code)]), Warning)
  {
  }

  /** Every request puts at most one message on the socket, and it does so
      exactly when its handler returns normally; the liveness check never
      does. */
  lemma OneMessagePerSuccess(tokens: map<string, string>, route: Route)
    ensures var h := RouteFlow(tokens, route);
      && |h.sent| <= 1
      && (route.GetRuok? ==> h.sent == [] && h.result == Returned(RuokBody))
      && (!route.GetRuok? ==> (h.result.Returned? <==> |h.sent| == 1))
      && (!route.GetRuok? && h.result.Returned? ==> h.result.body == JStr("ok"))
  {
  }

  /** The path-token handler checks the token before it reads the body: an
      unknown token is refused with HTTPForbidden even when the body is not
      JSON, and nothing is sent. */
  lemma UnknownPathTokenForbidden(tokens: map<string, string>, token: string, body: Body)
    requires token !in tokens
    ensures UrlTokenFlow(tokens, token, body) == Handled(Raise(Http(Forbidden)), [])
    ensures Middleware(UrlTokenFlow(tokens, token, body).result) ==
              Served(200, JObj(map["reason" := JStr("Forbidden"), "status" := JNum(403)]), Warning)
  {
  }

  /** The body-token handler reads the body first: a body that is not JSON
      escapes as the decode error, whatever the tokens. */
  lemma BodyTokenReadsBodyFirst(tokens: map<string, string>)
    ensures JsonTokenFlow(tokens, Malformed) == Handled(Raise(Uncaught(JsonDecodeError)), [])
    ensures Middleware(JsonTokenFlow(tokens, Malformed).result) == Escaped(JsonDecodeError)
  {
  }

  /** A JSON payload without a `token` key raises KeyError, which the
      middleware does not convert; an unknown token is refused. */
  lemma BodyTokenFailures(tokens: map<string, string>, fields: map<string, JValue>)
    ensures "token" !in fields ==>
              Middleware(JsonTokenFlow(tokens, Json(JObj(fields))).result) == Escaped(KeyError)
    ensures "token" in fields && fields["token"].JStr? && fields["token"].s !in tokens ==>
              JsonTokenFlow(tokens, Json(JObj(fields))) == Handled(Raise(Http(Forbidden)), [])
  {
  }

  /** A request with a known token and a JSON-object payload puts exactly
      one message on the socket: the token's room and the payload's `text`,
      or "" when it has none; the reply is "ok", logged at info. */
  lemma KnownTokenSendsOne(tokens: map<string, string>, route: Route)
    requires route.PostBodyToken? || route.PostPathToken?
    requires route.body.Json? && route.body.value.JObj?
    requires var token := if route.PostPathToken? then JStr(route.token) else
               (if "token" in route.body.value.fields then route.body.value.fields["token"] else JNull);
             token.JStr? && token.s in tokens
    ensures var h := RouteFlow(tokens, route);
      var f := route.body.value.fields;
      var room := tokens[if route.PostPathToken? then route.token else f["token"].s];
      && h.sent == [OutMsg(room, if "text" in f then f["text"] else JStr(""))]
      && Middleware(h.result) == Served(200, JStr("ok"), Info)
  {
  }

  /** Conversely, whatever was sent names the room of a known token. */
  lemma SentRoomBelongsToToken(tokens: map<string, string>, route: Route)
    requires |RouteFlow(tokens, route).sent| == 1
    ensures RouteFlow(tokens, route).sent[0].room in tokens.Values
  {
    var h := RouteFlow(tokens, route);
    match route
    case PostBodyToken(body) =>
      var t := body.value.fields["token"];
      assert h.sent[0].room == tokens[t.s];
    case PostPathToken(token, body) =>
      assert h.sent[0].room == tokens[token];
  }

  /** The webhook server: its token table and its end of the PAIR socket. */
  class Webhook {
    const tokens: map<string, string>
    const socket: PairSocket

    constructor (tokens: map<string, string>, socket: PairSocket)
      ensures this.tokens == tokens && this.socket == socket
    {
      this.tokens := tokens;
      this.socket := socket;
    }

    /** `_send`: builds the message and writes it to the socket. */
    method Send(wData: JValue, room: string) returns (raised: Option<Raised>)
      modifies socket
      ensures OutMessage(wData, room).Success? ==>
                raised == None && socket.queue == old(socket.queue) + [OutMessage(wData, room).value]
      ensures OutMessage(wData, room).Failure? ==>
                raised == Some(OutMessage(wData, room).error) && socket.queue == old(socket.queue)
    {
      var m := OutMessage(wData, room);
      if m.Failure? {
        return Some(m.error);
      }
      socket.SendString(m.value);
      raised := None;
    }

    method HandleWebhookJsonToken(body: Body) returns (h: HandlerResult)
      modifies socket
      ensures h == JsonTokenFlow(tokens, body).result
      ensures socket.queue == old(socket.queue) + JsonTokenFlow(tokens, body).sent
    {
      if body.Malformed? {
        return Raise(Uncaught(JsonDecodeError));
      }
      var w := body.value;
      if !w.JObj? {
        return Raise(Uncaught(TypeError));
      }
      if "token" !in w.fields {
        return Raise(Uncaught(KeyError));
      }
      var room := ValidateToken(tokens, w.fields["token"]);
      if room.Failure? {
        return Raise(room.error);
      }
      var raised := Send(w, room.value);
      match raised {
        case Some(e) => return Raise(e);
        case None =>
      }
      h := Returned(JStr("ok"));
    }

    method HandleWebhookUrlToken(token: string, body: Body) returns (h: HandlerResult)
      modifies socket
      ensures h == UrlTokenFlow(tokens, token, body).result
      ensures socket.queue == old(socket.queue) + UrlTokenFlow(tokens, token, body).sent
    {
      var room := ValidateToken(tokens, JStr(token));
      if room.Failure? {
        return Raise(room.error);
      }
      if body.Malformed? {
        return Raise(Uncaught(JsonDecodeError));
      }
      var raised := Send(body.value, room.value);
      match raised {
        case Some(e) => return Raise(e);
        case None =>
      }
      h := Returned(JStr("ok"));
    }

    /** One request through the middleware and the route table. */
    method Serve(route: Route) returns (s: Served)
      modifies socket
      ensures s == Middleware(RouteFlow(tokens, route).result)
      ensures socket.queue == old(socket.queue) + RouteFlow(tokens, route).sent
    {
      var h: HandlerResult;
      match route {
        case PostBodyToken(body) =>
          h := HandleWebhookJsonToken(body);
        case PostPathToken(token, body) =>
          h := HandleWebhookUrlToken(token, body);
        case GetRuok =>
          h := Returned(RuokBody);
        case NoRoute(pathKnown) =>
          h := Raise(Http(if pathKnown then MethodNotAllowed else NotFound));
      }
      s := Middleware(h);
    }
  }
}
