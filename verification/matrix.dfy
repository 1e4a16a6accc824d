/** The chat side of notflixbot/matrix.py: the message router of
    `_cb_message` with its phrase fallback, the invite and room-member
    filters, the `!` test of `_room_id`, the handler table, the two built-in
    replies, the device-trust loop and the decode-and-forward step of
    `zmq_poller`.  Every matrix-nio call is left out: alias resolution and
    the joined-member list are parameters, and `room_send` appends to an
    outbox. */
module Matrix {
  import opened Wrappers
  import opened Json
  import opened Exceptions
  import opened PyStr
  import opened Inproc
  import opened Configuration
  import Notflix

  // ---------------------------------------------------------------- events

  /** A `RoomMessageText`: its sender, the room it arrived in and its body. */
  datatype MessageEvent = MessageEvent(sender: string, roomId: string, body: string)

  /** The three kinds of event the client registers callbacks for; a member
      event carries its `content` dict. */
  datatype Event =
    | Message(msg: MessageEvent)
    | Invite(inviteStateKey: string, inviteRoom: string)
    | Member(content: map<string, JValue>, memberStateKey: string, memberRoom: string)

  /** The handler functions `cmd_handlers` can point at. */
  datatype Handler = Ruok | Whoami | KeySync | BaseAdd | NotflixAdd

  /** What the router reads from the configuration: `cmd_prefixes` (a dict
      from prefix to handler name), `admin_cmds` and `admin_user_ids`. */
  datatype RouterConfig = RouterConfig(
    cmdPrefixes: map<string, JValue>,
    adminCmds: set<string>,
    adminUserIds: set<string>)

  /** Where an event leads. */
  datatype Dispatch =
    | Ignore                       // a message the bot sent itself
    | RefuseAdmin                  // an admin command from a non-admin
    | Invoke(handler: Handler)     // the handler the prefix names
    | MissingHandler(name: JValue) // the KeyError `_cb_message` only logs
    | Crash(exc: Exc)              // an exception the callback lets through
    | Phrase(reply: Option<string>) // the `_phrase_respond` fallback
    | JoinRoom(room: string)         // `_cb_invite` joins the room
    | TrustRoom(room: string)      // `_trust_all_users_in_room`
    | NoAction                     // a filtered invite or member event

  // --------------------------------------------------------------- routing

  /** `event.body.strip().split(' ')`. */
  function CommandWords(body: string): (r: seq<string>)
    ensures |r| >= 1
  {
    Split(Strip(body), ' ')
  }

  function Prefix(body: string): string {
    CommandWords(body)[0]
  }

  /** An empty or all-whitespace body has the empty prefix. */
  lemma BlankBodyEmptyPrefix(body: string)
    requires AllSpace(body)
    ensures Prefix(body) == ""
  {
    StripEmptyIffAllSpace(body);
    SplitNoSep("", ' ');
  }

  /** The prefix is the stripped body up to its first space: a prefix of it
      with no space in it, followed by a space or the end. */
  lemma PrefixIsFirstWord(body: string)
    ensures var s, p := Strip(body), Prefix(body);
      && |p| <= |s| && p == s[..|p|] && ' ' !in p
      && (|p| < |s| ==> s[|p|] == ' ')
  {
    SplitHead(Strip(body), ' ');
  }

  /** The phrases `_phrase_respond` knows. */
  const Phrases: map<string, string> := map["are you alive?" := "no im a `robot`"]

  /** `_phrase_respond`: an exact match of the stripped body. */
  function PhraseReply(body: string): (r: Option<string>)
    ensures r.Some? <==> Strip(body) == "are you alive?"
    ensures r.Some? ==> r.value == "no im a `robot`"
  {
    if Strip(body) in Phrases then Some(Phrases[Strip(body)]) else None
  }

  /** `cmd_prefixes.get(prefix, None) is not None`. */
  predicate Mapped(cfg: RouterConfig, prefix: string) {
    prefix in cfg.cmdPrefixes && cfg.cmdPrefixes[prefix] != JNull
  }

  /** `_cb_message`. */
  function RouteMessage(botId: string, cfg: RouterConfig, handlers: map<string, Handler>,
                        ev: MessageEvent): Dispatch
  {
    if ev.sender == botId then Ignore
    else
      var prefix := Prefix(ev.body);
      if !Mapped(cfg, prefix) then Phrase(PhraseReply(ev.body))
      else if prefix in cfg.adminCmds && ev.sender !in cfg.adminUserIds then RefuseAdmin
      else
        var name := cfg.cmdPrefixes[prefix];
        if !Hashable(name) then Crash(TypeError)
        else if name.JStr? && name.s in handlers then Invoke(handlers[name.s])
        else MissingHandler(name)
  }

  /** The bot's own messages are ignored: no handler and no phrase reply. */
  lemma OwnMessageIgnored(botId: string, cfg: RouterConfig, handlers: map<string, Handler>,
                          ev: MessageEvent)
    requires ev.sender == botId
    ensures RouteMessage(botId, cfg, handlers, ev) == Ignore
  {
  }

  /** An admin command is refused exactly when a non-admin sends it. */
  lemma AdminRefusedIff(botId: string, cfg: RouterConfig, handlers: map<string, Handler>,
                        ev: MessageEvent)
    ensures RouteMessage(botId, cfg, handlers, ev) == RefuseAdmin <==>
              && ev.sender != botId
              && Mapped(cfg, Prefix(ev.body))
              && Prefix(ev.body) in cfg.adminCmds
              && ev.sender !in cfg.adminUserIds
  {
  }

  /** A mapped prefix that passes the admin test invokes exactly the handler
      its name maps to, and nothing else invokes a handler. */
  lemma InvokeIff(botId: string, cfg: RouterConfig, handlers: map<string, Handler>,
                  ev: MessageEvent, h: Handler)
    ensures RouteMessage(botId, cfg, handlers, ev) == Invoke(h) <==>
              var prefix := Prefix(ev.body);
              && ev.sender != botId
              && Mapped(cfg, prefix)
              && !(prefix in cfg.adminCmds && ev.sender !in cfg.adminUserIds)
              && cfg.cmdPrefixes[prefix].JStr?
              && cfg.cmdPrefixes[prefix].s in handlers
              && handlers[cfg.cmdPrefixes[prefix].s] == h
  {
  }

  /** A mapped name with no handler is only logged. */
  lemma MissingHandlerIff(botId: string, cfg: RouterConfig, handlers: map<string, Handler>,
                          ev: MessageEvent)
    ensures RouteMessage(botId, cfg, handlers, ev).MissingHandler? <==>
              var prefix := Prefix(ev.body);
              && ev.sender != botId
              && Mapped(cfg, prefix)
              && !(prefix in cfg.adminCmds && ev.sender !in cfg.adminUserIds)
              && Hashable(cfg.cmdPrefixes[prefix])
              && !(cfg.cmdPrefixes[prefix].JStr? && cfg.cmdPrefixes[prefix].s in handlers)
  {
  }

  /** An unmapped prefix falls through to the phrases, and only then are
      they consulted. */
  lemma PhraseFallbackIff(botId: string, cfg: RouterConfig, handlers: map<string, Handler>,
                          ev: MessageEvent)
    ensures RouteMessage(botId, cfg, handlers, ev).Phrase? <==>
              ev.sender != botId && !Mapped(cfg, Prefix(ev.body))
    ensures RouteMessage(botId, cfg, handlers, ev).Phrase? ==>
              RouteMessage(botId, cfg, handlers, ev).reply == PhraseReply(ev.body)
  {
  }

  /** A blank message from someone else, with `""` unmapped, gets no reply. */
  lemma BlankMessageSilent(botId: string, cfg: RouterConfig, handlers: map<string, Handler>,
                           ev: MessageEvent)
    requires ev.sender != botId && AllSpace(ev.body) && !Mapped(cfg, "")
    ensures RouteMessage(botId, cfg, handlers, ev) == Phrase(None)
  {
    BlankBodyEmptyPrefix(ev.body);
    StripEmptyIffAllSpace(ev.body);
  }

  /** `_cb_invite_filtered`, `_cb_room_member` and `_cb_message`. */
  function OnEvent(botId: string, cfg: RouterConfig, handlers: map<string, Handler>,
                   ev: Event): Dispatch
  {
    match ev
    case Message(m) => RouteMessage(botId, cfg, handlers, m)
    case Invite(stateKey, room) => if stateKey == botId then JoinRoom(room) else NoAction
    case Member(content, stateKey, room) =>
      if "membership" !in content then Crash(KeyError)
      else if content["membership"] == JStr("join") && stateKey == botId then TrustRoom(room)
      else NoAction
  }

  /** Only the bot's own invite is joined, and only the bot's own join
      triggers trust in the room. */
  lemma FiltersIff(botId: string, cfg: RouterConfig, handlers: map<string, Handler>, ev: Event)
    ensures OnEvent(botId, cfg, handlers, ev).JoinRoom? <==> ev.Invite? && ev.inviteStateKey == botId
    ensures OnEvent(botId, cfg, handlers, ev).JoinRoom? ==>
              OnEvent(botId, cfg, handlers, ev).room == ev.inviteRoom
    ensures OnEvent(botId, cfg, handlers, ev).TrustRoom? <==>
              && ev.Member? && "membership" in ev.content
              && ev.content["membership"] == JStr("join") && ev.memberStateKey == botId
    ensures OnEvent(botId, cfg, handlers, ev).TrustRoom? ==>
              OnEvent(botId, cfg, handlers, ev).room == ev.memberRoom
  {
  }

  /** `room_resolve_alias`: the room id of a known alias, or None for the
      error response, which has no `room_id`. */
  type Resolver = string -> Option<string>

  /** `_room_id`: a room id (leading `!`) is used as it is; anything else is
      an alias the homeserver resolves, and reading `room_id` off an error
      response raises AttributeError. */
  function RoomId(addr: string, resolve: Resolver): (r: Result<string, Exc>)
    ensures StartsWith(addr, "!") ==> r == Success(addr)
    ensures !StartsWith(addr, "!") ==> (r.Success? <==> resolve(addr).Some?)
    ensures !StartsWith(addr, "!") && r.Success? ==> r.value == resolve(addr).value
    ensures r.Failure? ==> r.error == AttributeError
  {
    if StartsWith(addr, "!") then Success(addr)
    else match resolve(addr)
      case Some(id) => Success(id)
      case None => Failure(AttributeError)
  }

  // --------------------------------------------------------------- replies

  const RuokReply: string := "`iamok`"

  function WhoamiReply(myId: string, yourId: string): string {
    "i am: `" + myId + "` and you are: `" + yourId + "`"
  }

  /** The text the client itself sends for a dispatch: the two built-in
      handlers and a phrase reply.  `_handle_whoami` reads
      `config.creds.user_id`, an AttributeError when there are no
      credentials.  The other handlers are not replies of the client's own. */
  function BuiltinReply(d: Dispatch, sender: string, creds: Option<Credentials>,
                        compound: JValue -> string): (r: Result<Option<string>, Exc>)
    ensures d == Invoke(Ruok) ==> r == Success(Some(RuokReply))
    ensures d == Invoke(Whoami) && creds.None? ==> r == Failure(AttributeError)
    ensures d == Invoke(Whoami) && creds.Some? && creds.value.userId.JStr? ==>
              r == Success(Some(WhoamiReply(creds.value.userId.s, sender)))
    ensures d.Phrase? ==> r == Success(d.reply)
    ensures r.Success? && r.value.Some? ==> d == Invoke(Ruok) || d == Invoke(Whoami) || d.Phrase?
  {
    match d
    case Invoke(Ruok) => Success(Some(RuokReply))
    case Invoke(Whoami) =>
      if creds.None? then Failure(AttributeError)
      else Success(Some(WhoamiReply(Format(creds.value.userId, compound), sender)))
    case Phrase(reply) => Success(reply)
    case Crash(e) => Failure(e)
    case _ => Success(None)
  }

  // ---------------------------------------------------------------- trust

  /** nio's `TrustState`. */
  datatype TrustState = Unset | Verified | Blacklisted | Ignored

  type DeviceStore = map<string, map<string, TrustState>>

  /** Every device trusted. */
  function TrustAll(devs: map<string, TrustState>): (r: map<string, TrustState>)
    ensures r.Keys == devs.Keys
    ensures forall d :: d in r ==> r[d] == Verified
  {
    map d | d in devs :: Verified
  }

  /** The devices `_trust_user_devices` logs as newly trusted. */
  function Unverified(devs: map<string, TrustState>): set<string> {
    set d | d in devs && devs[d] != Verified
  }

  /** `_trust_user_devices` acts on a user only when it differs from the
      configured `user_id` and the configured `autotrust` is true in
      Python's sense; both are the JSON values the configuration holds. */
  predicate Trusts(configUserId: JValue, autotrust: JValue, userId: string) {
    JStr(userId) != configUserId && Truthy(autotrust)
  }

  /** The test is Python's truth test, not a comparison with `true`: the
      string "false" and the number 1 turn trust on; 0, "", [], {} and None
      turn it off. */
  lemma AutotrustTruthiness(configUserId: JValue, userId: string)
    requires JStr(userId) != configUserId
    ensures Trusts(configUserId, JStr("false"), userId) && Trusts(configUserId, JNum(1), userId)
    ensures !Trusts(configUserId, JNum(0), userId) && !Trusts(configUserId, JStr(""), userId)
    ensures !Trusts(configUserId, JList([]), userId) && !Trusts(configUserId, JObj(map[]), userId)
    ensures !Trusts(configUserId, JNull, userId) && !Trusts(configUserId, JBool(false), userId)
  {
  }

  /** A configured `user_id` that is not a string equals no user id, so
      with autotrust on every user is trusted, the bot's own account too. */
  lemma NonStringUserIdTrustsEveryone(configUserId: JValue, autotrust: JValue, userId: string)
    requires !configUserId.JStr? && Truthy(autotrust)
    ensures Trusts(configUserId, autotrust, userId)
  {
  }

  /** The device store after trusting the users in `users`. */
  function TrustedStore(store: DeviceStore, users: set<string>, configUserId: JValue,
                        autotrust: JValue): (r: DeviceStore)
    ensures r.Keys == store.Keys
  {
    map u | u in store ::
      if u in users && Trusts(configUserId, autotrust, u) then TrustAll(store[u]) else store[u]
  }

  /** The users listed in a member list. */
  function MemberSet(members: seq<string>): set<string> {
    set u | u in members
  }

  /** The members of a prefix one longer are the shorter prefix's and one more. */
  lemma PrefixMembersStep(members: seq<string>, i: nat)
    requires i < |members|
    ensures MemberSet(members[..i + 1]) == MemberSet(members[..i]) + {members[i]}
  {
    assert members[..i + 1] == members[..i] + [members[i]];
  }

  /** Trusting one set of users and then another is trusting both. */
  lemma TrustedStoreCompose(store: DeviceStore, a: set<string>, b: set<string>,
                            configUserId: JValue, autotrust: JValue)
    ensures TrustedStore(TrustedStore(store, a, configUserId, autotrust), b, configUserId, autotrust)
            == TrustedStore(store, a + b, configUserId, autotrust)
  {
    var s1 := TrustedStore(store, a, configUserId, autotrust);
    var lhs := TrustedStore(s1, b, configUserId, autotrust);
    var rhs := TrustedStore(store, a + b, configUserId, autotrust);
    forall u | u in lhs
      ensures lhs[u] == rhs[u]
    {
      if u in a && u in b && Trusts(configUserId, autotrust, u) {
        assert TrustAll(TrustAll(store[u])) == TrustAll(store[u]);
      }
    }
  }

  /** What trusting does to one user's devices: with the bot's own account
      or autotrust off nothing changes; otherwise every device ends
      verified, the ones already verified keep their state and no device is
      added or removed. */
  lemma TrustedStoreEffect(store: DeviceStore, users: set<string>, configUserId: JValue,
                           autotrust: JValue, u: string)
    requires u in store
    ensures var r := TrustedStore(store, users, configUserId, autotrust);
      && r[u].Keys == store[u].Keys
      && (!(u in users && Trusts(configUserId, autotrust, u)) ==> r[u] == store[u])
      && (u in users && Trusts(configUserId, autotrust, u) ==>
            forall d :: d in r[u] ==> r[u][d] == Verified)
      && (forall d :: d in store[u] && store[u][d] == Verified ==> r[u][d] == Verified)
  {
  }

  // --------------------------------------------------------------- client

  /** A message handed to `room_send`: the resolved room id and the body
      (the markdown rendering beside it is not modelled). */
  datatype Sent = Sent(roomId: string, body: string)

  /** The outbox and the escaping exception after `send_msg(room, msg)`:
      the message goes out to the resolved room, or the resolution raises
      before `room_send` and nothing goes out. */
  function Deliver(outbox: seq<Sent>, room: string, msg: string, resolve: Resolver)
    : (r: (seq<Sent>, Option<Exc>))
    ensures r.1.None? <==> RoomId(room, resolve).Success?
    ensures r.1.None? ==> r.0 == outbox + [Sent(RoomId(room, resolve).value, msg)]
    ensures r.1.Some? ==> r.0 == outbox && r.1 == Some(AttributeError)
  {
    match RoomId(room, resolve)
    case Success(id) => (outbox + [Sent(id, msg)], None)
    case Failure(e) => (outbox, Some(e))
  }

  /** An alias the homeserver does not know sends nothing: `send_msg`
      raises AttributeError. */
  lemma UnknownAliasSendsNothing(outbox: seq<Sent>, room: string, msg: string, resolve: Resolver)
    requires !StartsWith(room, "!") && resolve(room).None?
    ensures Deliver(outbox, room, msg, resolve) == (outbox, Some(AttributeError))
  {
  }

  /** `cmd_handlers` as `MatrixClient._cmd_handlers` fills it. */
  const BaseHandlers: map<string, Handler> :=
    map["ruok" := Ruok, "whoami" := Whoami, "key_sync" := KeySync, "add" := BaseAdd]

  class Client {
    /** `nio.user_id`, the account the client is logged in as. */
    const botId: string
    /** `config.user_id`, the account the trust loop skips. */
    const configUserId: JValue
    /** `config.autotrust`, tested for truth by the trust loop. */
    const autotrust: JValue
    const router: RouterConfig
    const creds: Option<Credentials>
    /** The client's end of the `inproc://webhook` socket. */
    const socket: PairSocket

    /** `config.notflixbot`, from which `__init__` built `self.notflix`. */
    const notflixbot: Notflix.NotflixSection

    var cmdHandlers: map<string, Handler>
    /** nio's device store: the trust state of every device of every user. */
    var devices: DeviceStore
    /** Every message handed to `room_send`, oldest first. */
    var outbox: seq<Sent>

    /** `__init__` up to `self.cmd_handlers = dict()`.  The `_cmd_handlers`
        call that follows dispatches on the class being built, so `NewClient`
        and `NewNotflixClient` make it, once each. */
    constructor (botId: string, configUserId: JValue, autotrust: JValue, router: RouterConfig,
                 creds: Option<Credentials>, socket: PairSocket, devices: DeviceStore,
                 notflixbot: Notflix.NotflixSection)
      ensures this.botId == botId && this.configUserId == configUserId
      ensures this.autotrust == autotrust && this.router == router && this.creds == creds
      ensures this.socket == socket && this.devices == devices && outbox == []
      ensures this.notflixbot == notflixbot && cmdHandlers == map[]
    {
      this.botId := botId;
      this.configUserId := configUserId;
      this.autotrust := autotrust;
      this.router := router;
      this.creds := creds;
      this.socket := socket;
      this.devices := devices;
      this.notflixbot := notflixbot;
      outbox := [];
      cmdHandlers := map[];
    }

    /** `MatrixClient._cmd_handlers`: four entries written into the dict. */
    method InstallHandlers()
      modifies this
      ensures cmdHandlers == old(cmdHandlers)["ruok" := Ruok]["whoami" := Whoami]
                               ["key_sync" := KeySync]["add" := BaseAdd]
      ensures unchanged(this`devices) && unchanged(this`outbox)
    {
      cmdHandlers := cmdHandlers["ruok" := Ruok];
      cmdHandlers := cmdHandlers["whoami" := Whoami];
      cmdHandlers := cmdHandlers["key_sync" := KeySync];
      cmdHandlers := cmdHandlers["add" := BaseAdd];
    }

    /** `send_msg`: resolve the room and hand the message to `room_send`;
        a failed resolution escapes before anything is sent. */
    method SendMsg(room: string, msg: string, resolve: Resolver) returns (fault: Option<Exc>)
      modifies this
      ensures (outbox, fault) == Deliver(old(outbox), room, msg, resolve)
      ensures unchanged(this`devices) && unchanged(this`cmdHandlers)
    {
      var roomId := RoomId(room, resolve);
      if roomId.Failure? {
        return Some(roomId.error);
      }
      outbox := outbox + [Sent(roomId.value, msg)];
      fault := None;
    }

    /** `_cb_message` with the client's own replies: `ruok`, `whoami` and a
        phrase answer are sent to the event's room; a `key_sync` or `add`
        dispatch is returned for its handler to run. */
    method OnMessage(ev: MessageEvent, resolve: Resolver, compound: JValue -> string)
      returns (d: Dispatch, fault: Option<Exc>)
      modifies this
      ensures d == RouteMessage(botId, router, old(cmdHandlers), ev)
      ensures var r := BuiltinReply(d, ev.sender, creds, compound);
        && (r.Failure? ==> fault == Some(r.error) && outbox == old(outbox))
        && (r.Success? && r.value.None? ==> fault == None && outbox == old(outbox))
        && (r.Success? && r.value.Some? ==>
              (outbox, fault) == Deliver(old(outbox), ev.roomId, r.value.value, resolve))
      ensures unchanged(this`devices) && cmdHandlers == old(cmdHandlers)
    {
      d := RouteMessage(botId, router, cmdHandlers, ev);
      var r := BuiltinReply(d, ev.sender, creds, compound);
      match r {
        case Failure(e) =>
          fault := Some(e);
        case Success(None) =>
          fault := None;
        case Success(Some(text)) =>
          fault := SendMsg(ev.roomId, text, resolve);
      }
    }

    /** `_trust_user_devices`: every device of the user that is not yet
        verified is verified; returns the devices it logs as newly trusted. */
    method TrustUserDevices(userId: string) returns (trusted: set<string>)
      modifies this
      ensures devices == TrustedStore(old(devices), {userId}, configUserId, autotrust)
      ensures trusted == if Trusts(configUserId, autotrust, userId) && userId in old(devices)
                         then Unverified(old(devices)[userId]) else {}
      ensures unchanged(this`outbox) && unchanged(this`cmdHandlers)
    {
      trusted := {};
      if !Trusts(configUserId, autotrust, userId) || userId !in devices {
        assert devices == TrustedStore(devices, {userId}, configUserId, autotrust);
        return;
      }
      var devs := devices[userId];
      var todo := devs.Keys;
      while todo != {}
        invariant todo <= devs.Keys
        invariant userId in devices && devices == old(devices)[userId := devices[userId]]
        invariant outbox == old(outbox) && cmdHandlers == old(cmdHandlers)
        invariant devices[userId].Keys == devs.Keys
        invariant forall d :: d in todo ==> devices[userId][d] == devs[d]
        invariant forall d :: d in devs && d !in todo ==> devices[userId][d] == Verified
        invariant trusted == set d | d in devs && d !in todo && devs[d] != Verified
        decreases todo
      {
        var d :| d in todo;
        if devices[userId][d] != Verified {
          devices := devices[userId := devices[userId][d := Verified]];
          trusted := trusted + {d};
        }
        todo := todo - {d};
      }
      assert devices[userId] == TrustAll(devs);
      assert trusted == Unverified(devs);
      ghost var want := TrustedStore(old(devices), {userId}, configUserId, autotrust);
      assert devices.Keys == want.Keys;
      forall u | u in devices
        ensures devices[u] == want[u]
      {
      }
    }

    /** `_trust_all_users_in_room`, over the room's joined members. */
    method TrustAllUsersInRoom(members: seq<string>)
      modifies this
      ensures devices == TrustedStore(old(devices), MemberSet(members), configUserId, autotrust)
      ensures unchanged(this`outbox) && unchanged(this`cmdHandlers)
    {
      var i := 0;
      assert devices == TrustedStore(devices, {}, configUserId, autotrust);
      while i < |members|
        invariant 0 <= i <= |members|
        invariant devices == TrustedStore(old(devices), MemberSet(members[..i]), configUserId, autotrust)
        invariant outbox == old(outbox) && cmdHandlers == old(cmdHandlers)
      {
        var _ := TrustUserDevices(members[i]);
        TrustedStoreCompose(old(devices), MemberSet(members[..i]), {members[i]}, configUserId, autotrust);
        PrefixMembersStep(members, i);
        i := i + 1;
      }
      assert members[..i] == members;
    }

    /** One turn of `zmq_poller`: when a message is waiting, decode it and
        send its `msg` to its `room`.  The room is resolved first; then a
        `msg` that is not a string has no `strip`, so `markdown` raises
        AttributeError.  Either exception ends the loop. */
    method PollStep(resolve: Resolver) returns (fault: Option<Exc>)
      modifies this, socket
      ensures old(socket.queue) == [] ==> fault == None && socket.queue == [] && outbox == old(outbox)
      ensures old(socket.queue) != [] ==> socket.queue == old(socket.queue)[1..]
      ensures old(socket.queue) != [] && old(socket.queue)[0].msg.JStr? ==>
                (outbox, fault) == Deliver(old(outbox), old(socket.queue)[0].room, old(socket.queue)[0].msg.s, resolve)
      ensures old(socket.queue) != [] && !old(socket.queue)[0].msg.JStr? ==>
                fault == Some(AttributeError) && outbox == old(outbox)
      ensures unchanged(this`devices) && unchanged(this`cmdHandlers)
    {
      var m := socket.Receive();
      match m {
        case None =>
          fault := None;
        case Some(OutMsg(room, msg)) =>
          if msg.JStr? {
            fault := SendMsg(room, msg.s, resolve);
          } else if RoomId(room, resolve).Failure? {
            fault := Some(RoomId(room, resolve).error);
          } else {
            fault := Some(AttributeError);
          }
      }
    }
  }

  /** `MatrixClient(config, ctx)`: the fields, read from the configuration
      record, the base handler table, and `Notflix(config.notflixbot)`,
      whose KeyError or TypeError escapes `__init__`.  The section is checked
      before the object is built: a client that raised in `__init__` is
      never seen, so the order makes no difference. */
  method NewClient(botId: string, config: ConfigRecord, router: RouterConfig,
                   socket: PairSocket, devices: DeviceStore)
    returns (r: Result<Client, Exc>)
    ensures r.Success? <==> Notflix.NotflixInit(config.notflixbot).Success?
    ensures r.Failure? ==> r.error == Notflix.NotflixInit(config.notflixbot).error
    ensures r.Success? ==> fresh(r.value) && r.value.cmdHandlers == BaseHandlers
    ensures r.Success? ==> r.value.notflixbot == config.notflixbot && r.value.creds == config.creds
    ensures r.Success? ==> r.value.botId == botId && r.value.router == router
    ensures r.Success? ==> r.value.devices == devices && r.value.outbox == []
    ensures r.Success? ==> r.value.configUserId == config.userId && r.value.autotrust == config.autotrust
    ensures r.Success? ==> r.value.socket == socket
  {
    if Notflix.NotflixInit(config.notflixbot).Failure? {
      return Failure(Notflix.NotflixInit(config.notflixbot).error);
    }
    var c := new Client(botId, config.userId, config.autotrust, router, config.creds, socket, devices,
                        config.notflixbot);
    c.InstallHandlers();
    r := Success(c);
  }

  /** The `except KeyError` around the handler call in `_cb_message`: a
      KeyError the handler raises is logged as a missing handler function,
      and anything else escapes. */
  function HandlerOutcome(fault: Option<Exc>): (r: Option<Exc>)
    ensures r.None? <==> fault.None? || fault == Some(KeyError)
    ensures r.Some? ==> r == fault
  {
    if fault == Some(KeyError) then None else fault
  }
}
