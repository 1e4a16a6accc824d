# notflixbot, modelled in Dafny

notflixbot is a Matrix chat bot. It answers commands in rooms: `add <imdb
url>` looks a film up on TMDB, `ruok`, `whoami`, phrase replies. It trusts the
devices of users in its rooms, and it relays messages posted to a small
webhook server into rooms. This project models the decision logic of that bot
and proves properties of it:

- **Configuration** (`config.dfy`): the nested-key lookup `_get_cfg` over
  the parsed JSON document, the record `_parse_config_dict` builds field by
  field (as a pure function, as written and corrected, and as the `Config`
  class whose fields it assigns), the stored credentials and `update_creds`.
- **Matrix** (`matrix.dfy`): the message router of `_cb_message` with its
  phrase fallback, the invite and room-member filters, the `!` test of
  `_room_id`, the construction of the client with its handler table, the
  `except KeyError` around a handler call, the `ruok`/`whoami` replies, the
  device-trust loops over a mutable device store, and one decode-and-send
  step of `zmq_poller`.
- **Inproc** (`inproc.dfy`): the `inproc://webhook` PAIR socket between the
  webhook server and the chat client, as a first-in first-out queue.
- **Webhook** (`webhook.dfy`): token validation, the middleware that turns
  an `HTTPException` into a `{reason, status}` body, the access-log level,
  the two posting handlers, the liveness handler and `_send`.
- **Notflix** (`notflix.dfy`): the IMDb id taken from a URL, the TMDB
  "find" response turned into an item, the keys the `Notflix` constructor
  requires, the Radarr payload, and `add_from_imdb_url` with its error
  wrapping.
- **Notflixbot** (`notflixbot.dfy`): the bot's own TMDB parser (string
  TMDB id, no IMDb id), the `NotflixMatrixClient` handler table and the
  replies of its `_handle_add`, and the router running it.
- **Youtube** (`youtube.dfy`): the video id of a YouTube link and the
  preview `unfurl` builds.

Supporting modules:

- `pystr.dfy` models Python's `str.strip()`, `split(sep)` (keeping empty
  fields), `join`, `startswith`/`endswith`/`in`, `repr` of a string and a
  list of strings (with CPython's escapes for ASCII), and `str()` of an integer. Lemmas state their laws:
  - strip yields the trimmed slice and is idempotent;
  - split and join are inverse;
  - the first field of a split is the text up to the first separator;
  - the decimal text of an integer reads back as the integer.
- `json.dfy` holds the JSON value type.
- `exceptions.dfy` holds the exceptions.
- `urls.dfy` holds the URL record an abstract parser returns.
- `wrappers.dfy` holds `Option` and `Result`.

Outside effects are parameters of the model. These are the URL parser, the
TMDB, Invidious and Radarr requests, alias resolution, the credentials file
store, and the rendering of a list or dict in an f-string. Every result
therefore holds for any behaviour of these.

Some behaviours of the code that the model keeps:

- The middleware answers an `HTTPException` with `json_response`, whose HTTP
  status is its default 200. Only the body carries 403.
- A malformed request body is not converted: the `JSONDecodeError` escapes
  the middleware (`Served.Escaped`).
- Phrase replies match the stripped body exactly, case included.
- The trust loop tests the configured `autotrust` for truth and compares the
  configured `user_id` with the user's id as JSON values, as Python does.
- Sending to an alias the homeserver does not know raises AttributeError
  out of `send_msg`, before anything is sent.
- A token is read only from the JSON body's `token` field or the URL path.
- The configuration class follows the code as written. The two corrections
  of "## Findings" for the configuration are the separate `ParseConfig`.
- The TMDB search, `add_from_imdb_url` and `_handle_add` take a flag
  `asWritten`. With it set they follow the code as written, where two or
  more movie results raise AttributeError (the `logger.warn` row of
  "## Findings"). With it clear they follow the corrected parse. Every lemma
  about them holds for both, or says which one it is about.

## Model

All source paths are relative to the repository root.

| member | source | states |
|---|---|---|
| Configuration.WalkAppend | notflixbot/config.py:50 | `reduce(operator.getitem, keys, root)` is a fold: walking `a + b` is walking `a`, then `b` from wherever that led |
| Configuration.GetCfg | notflixbot/config.py:47-60 | a lookup fails exactly on a non-dict section on the path, or on a missing key when required. The required error names the dotted path. Any success other than the default is the stored value at the path |
| Configuration.GetCfgOneKey | notflixbot/config.py:47-60 | one-key lookup: the stored value, the required error naming the key, or the default |
| Configuration.GetCfgTwoKeys | notflixbot/config.py:47-60 | two-key lookup `root[a][b]`. The stored value comes back whatever it is, `None` and `""` included. A missing key gives the `'a.b'` error or the default. A non-dict section raises TypeError |
| Configuration.OptionalLookup | notflixbot/config.py:54-60 | a successful optional lookup is the stored value when the path exists and the default when it does not; `False`, `[]` and `{}` are returned as defaults |
| Configuration.LookupSucceeds | notflixbot/config.py:49-56 | a lookup with no non-dict section on its path, and with the key present when required, succeeds |
| Configuration.StderrFlagIgnoresStderrKey | notflixbot/config.py:65-70 | as written, every accepted log section without a `log.stderrr` key has the stderr flag True, whatever `log.stderr` holds |
| Configuration.StderrFalseIgnored | notflixbot/config.py:69 | as written, `{"log": {"level": …, "stderr": false}}` parses with the stderr flag True |
| Configuration.ParseLogHonoursStderr | notflixbot/config.py:65-70 | corrected: the flag is the stored `log.stderr`, or True when it is absent; the level is the stored `log.level` |
| Configuration.ParseLogFrom | notflixbot/config.py:65-70 | the log section read with a given key for the stderr flag; its defaults and acceptance are stated by `LogDefaults`, `LogAccepted` and `StderrFlagIgnoresStderrKey` |
| Configuration.ParseMatrix | notflixbot/config.py:73-83 | the matrix section; stated by `MatrixAccepted`, `MatrixDefaults` and `RequiredKeyMissingFails` |
| Configuration.ParseBot | notflixbot/config.py:85-87 | the notflixbot, autotrust and cmd_prefixes lookups; stated by `BotAccepted`, `BotDefaults` and `RequiredKeyMissingFails` |
| Configuration.ParseStoreFrom | notflixbot/config.py:88-96 | the credentials step and the storage path, as written or corrected; stated by `StoreAccepted`, `StoreDefaults` and `NullCredentialsPathFails` |
| Configuration.ParseConfigFrom | notflixbot/config.py:62-96 | the whole `_parse_config_dict` as a function, section by section in source order, as written or corrected; stated by `RequiredKeyMissingFails`, `EmptyConfigFails`, `CompleteConfigAccepted` and `OptionalFieldDefaults` |
| Configuration.ParseConfigAsWritten | notflixbot/config.py:62-96 | the parse as written (`stderrr`, `open(None)`); `Config.ParseConfigDict` and `NewConfig` are proved against it |
| Configuration.ParseConfig | notflixbot/config.py:62-96 | the corrected parse of "## Findings" |
| Configuration.ParseCredentials | notflixbot/config.py:105-108 | credentials parse exactly when all three of `user_id`, `device_id` and `access_token` are present |
| Configuration.ParseCredentialsFields | notflixbot/config.py:105-108 | a complete credentials dict gives exactly its three values |
| Configuration.ReadCredentials | notflixbot/config.py:16-23 | reading a file that does not exist is a ConfigError |
| Configuration.LoadCredsAsWritten | notflixbot/config.py:89-94 | the `try` around `Credentials.read` never lets a ConfigError escape: a ConfigError becomes `creds = None` |
| Configuration.MissingCredentialsPathRaises | notflixbot/config.py:88-90 | as written, an absent `credentials_path` yields `None`, and reading it raises TypeError, which the `except ConfigError` does not catch |
| Configuration.NullCredentialsPathFails | notflixbot/config.py:88-90 | as written, once the earlier sections parse, an absent or null `credentials_path` refuses the whole configuration with TypeError |
| Configuration.LoadCreds | notflixbot/config.py:88-94 | corrected: no path means no stored credentials. A string path behaves as written |
| Configuration.LoadCredsOutcome | notflixbot/config.py:89-94 | a missing, unparsable or incomplete credentials file leaves `creds` as None; a complete one is loaded |
| Configuration.RequiredKeyMissingFails | notflixbot/config.py:62-96 | as written and corrected, a missing `log.level`, `matrix.homeserver`, `matrix.user_id`, `matrix.device_name`, `cmd_prefixes` or `storage_path` fails the whole parse |
| Configuration.EmptyConfigFails | notflixbot/config.py:66 | as written and corrected, `{}` and `{'stderr': True}` are refused with the ConfigError naming `log.level` |
| Configuration.LogAccepted | notflixbot/config.py:65-70 | as written and corrected, the log section parses when `log.level` is present and none of its four paths (the flag's `stderrr` or `stderr`) runs into a non-dict |
| Configuration.MatrixAccepted | notflixbot/config.py:73-83 | the matrix section parses when its three required keys are present and no path runs into a non-dict |
| Configuration.BotAccepted | notflixbot/config.py:85-87 | the notflixbot/autotrust/cmd_prefixes step parses when `cmd_prefixes` is present and no path runs into a non-dict |
| Configuration.StoreAccepted | notflixbot/config.py:88-96 | the credentials step and the storage path parse when `storage_path` is present and the credentials path is a string naming a file that does not hold a non-dict; corrected, an absent or null path is accepted too |
| Configuration.CompleteConfigAccepted | notflixbot/config.py:62-96 | as written and corrected, a configuration with every required key present, no non-dict section in the way and a credentials path the credentials step accepts is accepted |
| Configuration.LogDefaults | notflixbot/config.py:67-69 | logfile defaults to None, json to False and the stderr flag to True, read from `stderrr` as written and from `stderr` corrected; a present key gives the stored value |
| Configuration.MatrixDefaults | notflixbot/config.py:77-83 | passwd and avatar default to None and rooms to `[]`; a present key gives the stored value |
| Configuration.BotDefaults | notflixbot/config.py:85-86 | notflixbot defaults to `{}` and autotrust to False |
| Configuration.StoreDefaults | notflixbot/config.py:88 | as written and corrected, credentials_path is the stored value or None |
| Configuration.OptionalFieldDefaults | notflixbot/config.py:67-88 | as written and corrected, every optional field of an accepted configuration is its stored value or its default: None, False, True, `[]` or `{}` |
| Configuration.Config.ParseConfigDict | notflixbot/config.py:62-96 | after the assignments, the object's fields are the record of the parse as written (`stderrr`, TypeError for an absent credentials path); on failure, the method returns the first exception in source order |
| Configuration.Config.AssignMatrix | notflixbot/config.py:73-83 | assigns the six matrix fields, or returns the error of the first failing lookup; `log` is untouched |
| Configuration.Config.AssignBot | notflixbot/config.py:85-87 | assigns notflixbot, autotrust and cmd_prefixes, or returns the first error; earlier fields are untouched |
| Configuration.Config.AssignStore | notflixbot/config.py:88-96 | assigns credentials_path, creds and storage_path as written (a path that is not a string raises TypeError), or returns the first error; earlier fields are untouched |
| Configuration.Config.UpdateCreds | notflixbot/config.py:98-100 | a complete credentials dict replaces `creds` with exactly its three values and nothing else changes; an incomplete one raises and changes nothing |
| Configuration.NewConfig | notflixbot/config.py:35-41 | the constructor succeeds exactly when the parse as written does, and the new object holds its record |
| Inproc.PairSocket.SendString | notflixbot/webhook.py:95 | a sent message goes to the back of the queue |
| Inproc.PairSocket.Receive | notflixbot/matrix.py:108-110 | the oldest waiting message comes out, or nothing when the queue is empty |
| Webhook.LogLevel | notflixbot/webhook.py:26-33 | error exactly for 500–599, warning exactly for 400–499, info otherwise |
| Webhook.ValidateToken | notflixbot/webhook.py:63-69 | succeeds exactly for a known token, with its room. Any other hashable token is HTTPForbidden |
| Webhook.Middleware | notflixbot/webhook.py:44-52 | a normal return is logged at info (200); an HTTPException becomes the `{reason, status}` body logged at its status's level; any other exception escapes unconverted |
| Webhook.OutMessage | notflixbot/webhook.py:88-95 | the message names the token's room and carries the payload's `text`, or `""`; a non-dict payload fails |
| Webhook.OneMessagePerSuccess | notflixbot/webhook.py:54-86 | every request enqueues at most one message. A posting request enqueues one exactly when it returns "ok". The liveness check enqueues nothing and answers `{'ruok': 'iamok'}` |
| Webhook.UnknownPathTokenForbidden | notflixbot/webhook.py:81-84 | an unknown path token is refused before the body is read, even a malformed one; the reply is the 403 body, logged at warning |
| Webhook.BodyTokenReadsBodyFirst | notflixbot/webhook.py:74-76 | the body-token handler decodes the body first: a malformed body escapes as the decode error, whatever the tokens |
| Webhook.BodyTokenFailures | notflixbot/webhook.py:74-77 | a payload without `token` escapes as KeyError; an unknown token is HTTPForbidden and nothing is sent |
| Webhook.KnownTokenSendsOne | notflixbot/webhook.py:74-95 | a known token with a JSON-object payload enqueues exactly `{room of the token, text or ""}` and answers "ok" at info |
| Webhook.SentRoomBelongsToToken | notflixbot/webhook.py:88-95 | whatever is enqueued names the room of some configured token |
| Webhook.Webhook.Send | notflixbot/webhook.py:88-95 | appends the built message to the socket, or raises and leaves the socket unchanged |
| Webhook.Webhook.HandleWebhookJsonToken | notflixbot/webhook.py:74-79 | result and enqueued messages are those of the body-token flow |
| Webhook.Webhook.HandleWebhookUrlToken | notflixbot/webhook.py:81-86 | result and enqueued messages are those of the path-token flow |
| Webhook.Webhook.Serve | notflixbot/webhook.py:44-61 | a request through the route table and the middleware: its response, and the messages it enqueues |
| Webhook.JsonTokenFlow | notflixbot/webhook.py:74-79 | the body-token handler as a function; stated by `BodyTokenReadsBodyFirst`, `BodyTokenFailures`, `KnownTokenSendsOne` and `OneMessagePerSuccess` |
| Webhook.UrlTokenFlow | notflixbot/webhook.py:81-86 | the path-token handler as a function; stated by `UnknownPathTokenForbidden`, `KnownTokenSendsOne` and `OneMessagePerSuccess` |
| Webhook.RouteFlow | notflixbot/webhook.py:54-61 | the route table, plus aiohttp's 404 and 405 for requests no route matches; stated by `OneMessagePerSuccess`, `SentRoomBelongsToToken` and `UnroutedRequest` |
| Webhook.UnroutedRequest | notflixbot/webhook.py:44-61 | a request matching no route sends nothing and gets HTTP 200 with the body `{reason: "Not Found", status: 404}`, or `{reason: "Method Not Allowed", status: 405}` when only the method is wrong, logged at warning |
| Matrix.CommandWords | notflixbot/matrix.py:289 | `body.strip().split(' ')` always has a first element |
| Matrix.BlankBodyEmptyPrefix | notflixbot/matrix.py:288-290 | an empty or all-whitespace body has prefix `""` |
| Matrix.Prefix | notflixbot/matrix.py:289-290 | the first word of the stripped body; stated by `PrefixIsFirstWord` and `BlankBodyEmptyPrefix` |
| Matrix.RouteMessage | notflixbot/matrix.py:274-307 | the router of `_cb_message`; stated by `OwnMessageIgnored`, `AdminRefusedIff`, `InvokeIff`, `MissingHandlerIff`, `PhraseFallbackIff` and `BlankMessageSilent` |
| Matrix.PrefixIsFirstWord | notflixbot/matrix.py:289-290 | the prefix is the stripped body up to its first space: a space-free prefix of it followed by a space or the end |
| Matrix.PhraseReply | notflixbot/matrix.py:309-316 | a reply exists exactly when the stripped body is `are you alive?`, and it is ``no im a `robot` `` |
| Matrix.OwnMessageIgnored | notflixbot/matrix.py:278-279 | the bot's own messages invoke no handler and get no phrase reply |
| Matrix.AdminRefusedIff | notflixbot/matrix.py:292-298 | a message is refused exactly when a non-admin sends a mapped admin command |
| Matrix.InvokeIff | notflixbot/matrix.py:299-302 | handler `h` runs exactly when the prefix is mapped, passes the admin test, and its name maps to `h` in the table |
| Matrix.MissingHandlerIff | notflixbot/matrix.py:299-305 | a mapped name absent from the table is only logged |
| Matrix.PhraseFallbackIff | notflixbot/matrix.py:292-307 | phrase matching happens exactly for another user's message with an unmapped prefix |
| Matrix.BlankMessageSilent | notflixbot/matrix.py:288-316 | a blank message from someone else, with `""` unmapped, gets no reply |
| Matrix.FiltersIff | notflixbot/matrix.py:236-272 | only an invite addressed to the bot's own id joins, and it joins the invite's room. Trust runs only on a member event with `membership == "join"` and the bot's own state key |
| Matrix.OnEvent | notflixbot/matrix.py:236-307 | the three callbacks as one dispatch, a member event without `membership` raising KeyError; stated by `FiltersIff` and, for messages, the `RouteMessage` lemmas |
| Matrix.WhoamiReply | notflixbot/matrix.py:318-322 | the `whoami` text; `BuiltinReply` states what it is sent with |
| Matrix.RoomId | notflixbot/matrix.py:115-121 | an address starting with `!` is used unchanged; anything else is resolved, and an alias the homeserver does not know raises AttributeError (the error response has no `room_id`) |
| Matrix.Deliver | notflixbot/matrix.py:339-358 | `send_msg` sends exactly one message, to the resolved room, exactly when the room resolves; otherwise nothing is sent and AttributeError escapes |
| Matrix.UnknownAliasSendsNothing | notflixbot/matrix.py:120-121 | a message to an unknown alias sends nothing and raises AttributeError |
| Matrix.BuiltinReply | notflixbot/matrix.py:318-325 | `ruok` replies ``"`iamok`"``. `whoami` replies with the stored user id and the sender, or raises AttributeError without credentials. A phrase dispatch sends its reply. Nothing else sends a reply of the client's own |
| Matrix.TrustAll | notflixbot/matrix.py:224-226 | every device of the user ends up verified and no device is added |
| Matrix.TrustedStore | notflixbot/matrix.py:222-229 | trusting users keeps the set of known users |
| Matrix.TrustedStoreCompose | notflixbot/matrix.py:217-220 | trusting one set of users and then another is trusting both sets |
| Matrix.TrustedStoreEffect | notflixbot/matrix.py:222-229 | a user equal to the configured `user_id`, or any user while the configured `autotrust` is false in Python's sense, is left unchanged. Otherwise every device of the user becomes verified, and already-verified devices stay verified |
| Matrix.Trusts | notflixbot/matrix.py:223 | the guard of `_trust_user_devices` over the configuration's JSON values; stated by `AutotrustTruthiness` and `NonStringUserIdTrustsEveryone` |
| Json.Truthy | notflixbot/matrix.py:223 | Python's truth value of a JSON value; stated by `AutotrustTruthiness` |
| Matrix.AutotrustTruthiness | notflixbot/matrix.py:223 | `autotrust` is tested for truth, not compared with `true`: `"false"` and `1` turn trust on; `0`, `""`, `[]`, `{}`, None and False turn it off |
| Matrix.NonStringUserIdTrustsEveryone | notflixbot/matrix.py:223 | a configured `user_id` that is not a string equals no user id, so with autotrust on every user is trusted, the bot's own account included |
| Matrix.Client.constructor | notflixbot/matrix.py:37-49 | a new client holds the given fields and `notflixbot` section, an empty handler table and an empty outbox |
| Matrix.NewClient | notflixbot/matrix.py:37-53 | construction succeeds exactly when `Notflix(config.notflixbot)` does, and fails with its exception otherwise; a new client holds the given bot id, router settings, socket and device store, the configuration record's `user_id`, `autotrust`, credentials and `notflixbot` section, the base handler table and an empty outbox |
| Matrix.HandlerOutcome | notflixbot/matrix.py:300-305 | a KeyError raised in the handler call is only logged; any other exception escapes unchanged |
| Matrix.Client.InstallHandlers | notflixbot/matrix.py:157-161 | writes `ruok`, `whoami`, `key_sync` and `add` into the table and touches nothing else |
| Matrix.Client.SendMsg | notflixbot/matrix.py:339-358 | the outbox and the escaping exception are those of `Deliver`: one message to the resolved room, or nothing and AttributeError for an unknown alias |
| Matrix.Client.OnMessage | notflixbot/matrix.py:274-325 | the dispatch is the router's. The client's own reply, if any, is delivered to the event's room as `Deliver` states, an unknown alias raising. A raised exception sends nothing |
| Matrix.Client.TrustUserDevices | notflixbot/matrix.py:222-229 | the store becomes the one with this user trusted. The devices logged as newly trusted are exactly those that were unverified |
| Matrix.Client.TrustAllUsersInRoom | notflixbot/matrix.py:217-220 | the store becomes the one with every listed member trusted |
| Matrix.Client.PollStep | notflixbot/matrix.py:105-113 | the oldest queued message is consumed. A string `msg` is delivered to its room as `Deliver` states. Any other `msg` is an AttributeError (`markdown` calls `strip`) that sends nothing. An empty queue changes nothing |
| Notflix.GetImdbIdFromUrl | notflixbot/notflix.py:102-111 | succeeds exactly for a host ending in "imdb.com" with at least three `/`-fields, returning the third. Otherwise it fails: ImdbError for another host, IndexError for a short path |
| Notflix.ImdbIdHasNoSlash | notflixbot/notflix.py:105-108 | an extracted id holds no `/` |
| Notflix.ImdbIdOfPath | notflixbot/notflix.py:104-109 | for `/<a>/<id>` and `/<a>/<id>/<rest>` the id is `<id>`, whatever `<a>` is |
| Notflix.LookalikeHostAccepted | notflixbot/notflix.py:104 | the suffix test accepts the host `notimdb.com` |
| Notflix.OtherHostRefused | notflixbot/notflix.py:110-111 | a host not ending in "imdb.com" is ImdbError("not an imdb url") whatever the path |
| Notflix.TitleOnlyPathShort | notflixbot/notflix.py:104-108 | `https://www.imdb.com/title`: the path `/title` splits into `["", "title"]`, so the id lookup raises IndexError |
| Notflix.ReleaseYearIsPrefix | notflixbot/notflix.py:79 | the release year is the date up to its first `-`, or the whole date |
| Notflix.ReleaseYear | notflixbot/notflix.py:79 | `release_date.split('-')[0]`; stated by `ReleaseYearIsPrefix` |
| Notflix.PathText | notflixbot/notflix.py:76-77 | a poster or backdrop path in an f-string, `None` included; used by the `MovieItem` ensures |
| Notflix.MovieItem | notflixbot/notflix.py:74-85 | poster and backdrop are the base URL followed by the path. The year comes from the date. The original title defaults to `""`. `imdb_id` echoes the input |
| Notflix.ParseTvdb | notflixbot/notflix.py:68-91 | corrected (the warning logged): the first movie wins even when TV results exist. TV results alone raise NotImplementedError. No results give None |
| Notflix.ParseTvdbAsWritten | notflixbot/notflix.py:69-71 | as written, the parse is the corrected one for at most one movie result |
| Notflix.SeveralMoviesRaise | notflixbot/notflix.py:70-71 | with two or more movie results, the parse as written raises AttributeError where the corrected one returns the first movie |
| Notflix.NotflixInit | notflixbot/notflix.py:96-100 | a `Notflix` object is built exactly from a dict holding `themoviedb_api_key`, `radarr_url` and `radarr_api_key`. Otherwise: TypeError for a non-dict, KeyError for a missing key |
| Notflix.SearchImdbId | notflixbot/notflix.py:61-66 | as written and corrected: request errors pass through, a parse error passes through, and a `None` result becomes TvdbError naming the id; otherwise the parsed item is returned |
| Notflix.SearchEchoesId | notflixbot/notflix.py:61-85 | as written and corrected, a found item is the first movie's and carries the id it was asked for; as written it is found only when there is exactly one movie |
| Notflix.SearchSeveralMoviesRaises | notflixbot/notflix.py:61-71 | with two or more movie results the search as written raises AttributeError, which is no lookup error; corrected, it returns the first movie |
| Notflix.RadarrPayload | notflixbot/notflix.py:18-28 | the payload has exactly seven keys: the item's ids and title, quality profile 4, the root folder, `monitored` and `searchForMovie` |
| Notflix.PayloadDependsOnIdsAndTitle | notflixbot/notflix.py:18-28 | nothing of the item but its two ids and its title reaches Radarr |
| Notflix.WrapLookup | notflixbot/notflix.py:127-128 | ImdbError, TvdbError and NotImplementedError are wrapped in NotflixbotError; anything else passes through |
| Notflix.AddSteps | notflixbot/notflix.py:114-119 | as written and corrected: on success, the item is the search result for the URL's id, and `added` holds exactly when Radarr answered 201; a failed id lookup is the step's failure |
| Notflix.AddFromImdbUrl | notflixbot/notflix.py:113-128 | as written and corrected, the steps' result, with a lookup error wrapped in NotflixbotError |
| Notflix.AddOutcome | notflixbot/notflix.py:113-128 | as written and corrected: no lookup error escapes unwrapped. The item carries the URL's id. `added` holds iff Radarr answered 201 |
| Notflix.AddSeveralMoviesEscapes | notflixbot/notflix.py:70-71 | as written, an IMDb URL whose lookup finds two or more movies escapes as an unwrapped AttributeError, before anything is posted |
| Notflix.AddRejectsOtherHost | notflixbot/notflix.py:113-115 | as written and corrected, a URL off IMDb fails as a wrapped ImdbError before any request |
| Notflix.AddShortPathEscapes | notflixbot/notflix.py:113-116 | as written and corrected, an IMDb URL whose path has fewer than three `/`-fields escapes as an unwrapped IndexError |
| Notflixbot.MovieItem | notflixbot/notflixbot.py:54-65 | poster is the base URL plus the path; the year comes from the date; the TMDB id is the decimal text of the id |
| Notflixbot.ParseTvdb | notflixbot/notflixbot.py:49-71 | this module's parse, corrected; stated by `ParseTvdbAgrees` and `SeveralMoviesRaise` |
| Notflixbot.ParseTvdbAgrees | notflixbot/notflixbot.py:49-71 | as written and corrected, the same precedence and errors as the other parser, field for field, except that the TMDB id is a string and there is no IMDb id; the only errors are NotImplementedError and, as written, AttributeError |
| Notflixbot.ParseTvdbAsWritten | notflixbot/notflixbot.py:50-52 | as written, this module's parse is the corrected one for at most one movie result |
| Notflixbot.SeveralMoviesRaise | notflixbot/notflixbot.py:51-52 | with two or more movie results, this module's parse as written raises AttributeError where the corrected one gives the first movie's item |
| Notflixbot.TmdbIdText | notflixbot/notflixbot.py:63 | `str(m['id'])` reads back as the id |
| Notflixbot.SearchImdbId | notflixbot/notflixbot.py:31-47 | as written and corrected: an empty find becomes TvdbError naming the id; a success is the first movie's item, and as written the only movie's; a failure is the request's error, a lookup error or, as written, AttributeError |
| Notflixbot.NotflixHandlersRebindAdd | notflixbot/notflixbot.py:75-77 | the subclass table has the same four names as the base table. Only `add` points elsewhere |
| Notflixbot.InstallNotflixHandlers | notflixbot/notflixbot.py:75-77 | the base entries, then `add` rebound to the subclass handler |
| Notflixbot.NewNotflixClient | notflixbot/notflixbot.py:74-77 | construction succeeds exactly when `Notflix(config.notflixbot)` does; a new subclass client holds the given bot id, router settings, socket and device store, the configuration record's `user_id`, `autotrust`, credentials and `notflixbot` section, the subclass table, installed once, and an empty outbox |
| Notflixbot.ApiKey | notflixbot/notflixbot.py:84 | the TMDB key is found exactly when the `notflixbot` section is a dict holding it. Otherwise: TypeError for a non-dict, KeyError for a missing key |
| Notflixbot.Caught | notflixbot/notflixbot.py:106-112 | the `except` clauses: IndexError gives the invalid-command reply, a lookup error its message, and exactly the other exceptions escape unchanged |
| Notflixbot.InvalidCommand | notflixbot/notflixbot.py:107 | the invalid-command text; stated by `BareAddText` |
| Notflixbot.ItemReply | notflixbot/notflixbot.py:103 | the item line; stated by `SearchReplyMovie` |
| Notflixbot.ErrorReply | notflixbot/notflixbot.py:111-112 | `error: {str(e)}`; stated by `TvReplyText`, `AddOtherHost` and `SearchReplyNothing` |
| Notflixbot.AddReply | notflixbot/notflixbot.py:79-112 | as written and corrected, only an exception the `except` clauses do not catch escapes; with a URL word the reply is the URL stage's |
| Notflixbot.UrlReply | notflixbot/notflixbot.py:82-112 | as written and corrected, only an uncaught exception escapes; a failed id lookup goes through the `except` clauses |
| Notflixbot.SearchReply | notflixbot/notflixbot.py:85-112 | as written and corrected, what escapes is the request's own error or, as written, AttributeError, never a caught one |
| Notflixbot.SearchReplyMovie | notflixbot/notflixbot.py:103-104 | a found movie is answered `"{title} ({year}) \| [poster]({poster})"`: corrected for any movie list, as written when it is the only movie |
| Notflixbot.SearchReplySeveralMovies | notflixbot/notflixbot.py:51-52 | with two or more movies the search as written raises AttributeError, which no `except` of `_handle_add` catches; corrected, the first movie is answered |
| Notflixbot.TvReplyText | notflixbot/notflixbot.py:111-112 | NotImplementedError's reply is "error: currently this only works for movies" |
| Notflixbot.SearchReplyTv | notflixbot/notflixbot.py:67-69 | as written and corrected, TV results alone are answered with the NotImplementedError message |
| Notflixbot.SearchReplyNothing | notflixbot/notflixbot.py:42-46 | as written and corrected, no results are answered with the TvdbError message naming the id |
| Notflixbot.SearchReplyRequestFails | notflixbot/notflixbot.py:38-40 | as written and corrected, a failed request whose exception the handler does not catch is not answered; it escapes the handler |
| Notflixbot.AddWithoutUrl | notflixbot/notflixbot.py:81-82 | a stripped body without a space is answered with the invalid-command reply naming the one-word list |
| Notflixbot.AddWithUrl | notflixbot/notflixbot.py:81-83 | a stripped body with a space has a URL word, and the reply is the URL stage's |
| Notflixbot.BareAddText | notflixbot/notflixbot.py:107 | the text of the command list `['add']` is `invalid command: '['add']'` |
| Notflixbot.BareAddCommand | notflixbot/notflixbot.py:81-109 | `add` alone, with any surrounding whitespace, replies `invalid command: '['add']'` |
| Notflixbot.AddOtherHost | notflixbot/notflixbot.py:111-112 | a URL off IMDb is answered "error: not an imdb url" |
| Notflixbot.AddShortPath | notflixbot/notflixbot.py:106-109 | as written and corrected, an IMDb URL whose path has fewer than three `/`-fields gets the invalid-command reply |
| Notflixbot.AddReachesSearch | notflixbot/notflixbot.py:83-85 | with an id and a TMDB key, the reply is the search's |
| Notflixbot.ConfiguredAddSearches | notflixbot/notflixbot.py:83-85 | a client's `notflixbot` section always holds the TMDB key, so an add with an IMDb id always reaches the search, keyed with it |
| Notflixbot.AddSeveralMoviesRaises | notflixbot/notflixbot.py:51-52 | as written, an add whose IMDb id finds two or more movies under the client's key raises AttributeError out of `_handle_add`, and the router's `except KeyError` passes it on; corrected, the first movie is answered |
| Notflixbot.HandleAdd | notflixbot/notflixbot.py:79-112 | as written or corrected, the reply built with the client's `notflixbot` section is delivered to the event's room as `Deliver` states, an unknown alias raising; an escaping exception, such as the as-written AttributeError for several movies, sends nothing and is returned |
| Notflixbot.OnNotflixMessage | notflixbot/matrix.py:274-307 | as written or corrected, an `add` dispatch runs `_handle_add`, whose KeyError the router logs while any other exception, an unknown alias's AttributeError included, escapes; every other dispatch behaves as in `OnMessage` |
| Youtube.GetYoutubeVideoId | notflixbot/youtube.py:12-26 | a "youtube.com" word gives the first `v` value, or None without one. Otherwise a "youtu.be" word gives its path minus the first character. A word with neither is ValueError |
| Youtube.YoutubeComWins | notflixbot/youtube.py:13-21 | a word naming both hosts is read as a youtube.com link |
| Youtube.HostAnywhere | notflixbot/youtube.py:21 | the host test is a substring test: "youtu.be" anywhere in the word is accepted |
| Youtube.WatchUrl | notflixbot/youtube.py:40 | the watch URL starts with the Invidious site and ends with `/watch?v=` followed by the id |
| Youtube.Unfurl | notflixbot/youtube.py:28-48 | a preview is only built for a word the id extraction accepts |
| Youtube.UnfurlFirstWordOnly | notflixbot/youtube.py:29-48 | everything after the first space is ignored |
| Youtube.UnfurlNoLink | notflixbot/youtube.py:29-31 | a first word that is no YouTube link gives no preview |
| Youtube.UnfurlRequestFails | notflixbot/youtube.py:35-48 | a failed request gives no preview |
| Youtube.UnfurlPreview | notflixbot/youtube.py:39-44 | the preview is `"🎥 {title} \| [YouBahn]({watch url})"` with plain text `"🎥 {title}"` |
| Youtube.UnfurlMissingV | notflixbot/youtube.py:13-40 | a youtube.com link without `v` gives the id None (lines 13-20), and `urljoin(...) + ytid` at line 40 raises TypeError out of `unfurl` once the request has returned a title |
| Youtube.UnfurlMissingTitle | notflixbot/youtube.py:37-39 | an answer that is a dict without `title` raises KeyError out of `unfurl`, and one that is not a dict raises TypeError |

## Left out

- asyncio orchestration is not modelled, because it is concurrency:
  - `start`, `sync_forever`, `_after_first_sync` and `asyncio.gather`;
  - the `zmq_poller` poll loop, of which one step is modelled (`Matrix.Client.PollStep`);
  - the `Webhook.serve` runner.
- matrix-nio calls are foreign code. These are not modelled:
  - `login`, `whoami`, `room_send`, `join` and `set_avatar`;
  - key upload/query/claim (the `KeySync` handler is dispatched but not run);
  - `load_store` and `AsyncClientConfig`;
  - `markdown()` rendering, of which only the AttributeError for a non-string message is kept;
  - `restore_login` with its prompts.
- matrix-nio calls that are parameters instead:
  - `room_resolve_alias` becomes the `resolve` parameter, which gives a room id or None for the error response;
  - `joined_members` becomes the member list given to `TrustAllUsersInRoom`;
  - `verify_device` becomes the trust state written into the device store.
- Network requests are the `find`, `lookup` and `post` parameters:
  - the TMDB request, including `raise_for_status`;
  - Radarr's `requests.post` and its JSON answer;
  - the Invidious request, including the timeout.
- `notflixbot/healthcheck.py` is not part of this model.
- `urlparse`, `parse_qs` and `urljoin` are the `parse` parameter and the `origin` string. Nothing about them is assumed beyond `parse_qs` never producing an empty value list. The Invidious API URL is not modelled, since only the request's result is read.
- `json.loads`/`json.dumps` on the socket is not modelled. The queue carries the message itself, because decoding gives it back.
- File and process I/O: `Config.read` is modelled as a map from path to file contents (`FileStore`). These are left out:
  - `Credentials.write` and `chmod`;
  - `setup_logger` and all logging (a `log.level` loguru does not know is not checked);
  - `print`;
  - `notflixbot/main.py`;
  - the version metadata.
- `vote_average` is a float. It is carried as the unread `Score`.
- The TMDB response is a typed record. A missing key or a value of the wrong type inside it (a KeyError in the source) is not modelled.
- `str()` of a list or dict is the `compound` parameter. This covers an f-string over a list or dict `user_id`, title or `msg`, since its text depends on key order.
- Modelled as inputs, because the parser shown does not define them:
  - `admin_cmds`, `admin_user_ids` and `webhook_tokens`;
  - `cmd_prefixes`, taken as a dict.
- `Matrix.Client.TrustUserDevices`: a user missing from the device store is treated as having no devices. What nio's store does for such a user is not modelled.
- The base `MatrixClient._handle_add` is not modelled. `NotflixMatrixClient` overrides it.
- `Matrix.NewClient` and `Notflixbot.NewNotflixClient` check the `notflixbot` section before the object is built, while `__init__` builds the `Notflix` object last. An object whose `__init__` raised is never seen, so only the exception is kept.
- `PyStr.ReprChar`, `PyStr.ListRepr` and `Notflixbot.InvalidCommand`: characters beyond ASCII are kept as they are. Python's `repr` escapes the ones it does not count as printable (U+0085, U+00A0, U+200B and others) as `\x..` or `\u....`; Unicode's printable classes are not modelled.
- `Configuration.LoadCredsAsWritten`: a number or boolean credentials path is taken to raise TypeError like `None`. Python's `open` takes an integer as a file descriptor, which is not modelled.
- `Webhook.RouteFlow`: a HEAD request to `/_webhook/ruok`, which aiohttp's `get` also routes, is not modelled; the router's other answers (a redirect for a trailing slash and the like) are not either.
- `print(json.dumps(j, indent=2))` in `Notflix`'s `search_imdb_id` is output only and is left out.
- `Config.read`'s exact invalid-JSON message (line and column) is not modelled. Only its prefix `invalid json in '<path>'` is kept.

## Findings

| source | as written | input that shows it | evidently intended | confidence | as-written member | corrected member |
|---|---|---|---|---|---|---|
| notflixbot/config.py:69 | the stderr flag is read from `["log", "stderrr"]` (three r) with default True | `{"log": {"level": "INFO", "stderr": false}}`: the flag comes out True | read `["log", "stderr"]`, the key the sample configuration and the tests use | high, not executed | Configuration.StderrFlagIgnoresStderrKey | Configuration.ParseLogHonoursStderr |
| notflixbot/config.py:88-90 | an absent `credentials_path` is `None`, and `Credentials.read(None)` calls `open(None)`, whose TypeError the `except ConfigError` does not catch | a configuration without `credentials_path` cannot be loaded | `credentials_path` is optional: no path means no stored credentials, like a missing file | medium, not executed | Configuration.NullCredentialsPathFails | Configuration.LoadCreds |
| notflixbot/notflix.py:70-71 | with more than one movie result `parse_tvdb` calls `logger.warn`, which loguru's logger does not define | a TMDB answer with two movie results: AttributeError instead of the first movie | log the warning (`logger.warning`) and use the first movie | medium, not executed | Notflix.AddSeveralMoviesEscapes | Notflix.ParseTvdb |
| notflixbot/notflixbot.py:51-52 | the same `logger.warn` call in this module's `parse_tvdb` | a TMDB answer with two movie results: the add command raises AttributeError instead of replying | log the warning and use the first movie | medium, not executed | Notflixbot.AddSeveralMoviesRaises | Notflixbot.SearchReplyMovie |
